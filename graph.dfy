/** The Microsoft Graph client (app/lib/graph.ts): token acquisition with its single
    error message, the retry-once-on-401 wrapper, and the Inbox forwarding rules,
    which are recognised by their display name alone.

    The user's mailbox on the Graph side is a `Mailbox` object whose rule list the
    operations change. MSAL and the Graph HTTP client are oracles: `token(k)` is the
    outcome of the k-th token acquisition of one call, `fails(k)` says whether the
    k-th attempt of the request is refused (and with which error). */
module Graph {
  import opened Common
  import opened Validators

  // ---------------------------------------------------------------------------
  // Tokens and the retry wrapper

  const AuthFailedMessage := "Failed to authenticate. " + "Please sign in again."

  /** `getAccessToken(userId, scopes)`. `secret` is what `getSecret(userId,
      'microsoft')` produced (it may throw), `decrypt` stands for `decrypt` of the
      stored value, and `acquire` for building the MSAL client and exchanging the
      refresh token (an error, or `null` for no result). Whatever goes wrong, the
      caller sees the same message. */
  function GetAccessToken(secret: Result<Option<string>>, decrypt: string -> Result<string>,
                          acquire: string -> Result<Option<string>>): (r: Result<string>)
    ensures r.Err? ==> r == Fail(AuthFailedMessage)
    ensures r.Ok? <==>
      && secret.Ok? && Truthy(secret.value)
      && decrypt(secret.value.value).Ok?
      && acquire(decrypt(secret.value.value).value).Ok?
      && acquire(decrypt(secret.value.value).value).value.Some?
    ensures r.Ok? ==> r.value == acquire(decrypt(secret.value.value).value).value.value
  {
    if secret.Err? || !Truthy(secret.value) then Fail(AuthFailedMessage)
    else
      var refreshToken := decrypt(secret.value.value);
      if refreshToken.Err? then Fail(AuthFailedMessage)
      else
        var result := acquire(refreshToken.value);
        if result.Err? || result.value.None? then Fail(AuthFailedMessage)
        else Ok(result.value.value)
  }

  /** A token oracle that fails only the way `getAccessToken` does: every
      failure carries the one authentication message. */
  ghost predicate FailsLikeGetAccessToken(token: nat -> Result<string>) {
    forall k :: token(k).Err? ==> token(k) == Fail(AuthFailedMessage)
  }

  /** Tokens obtained by `getAccessToken`, one call per acquisition `k` with that
      call's stored secret and MSAL answer, form such an oracle. */
  lemma AccessTokenOracle(secret: nat -> Result<Option<string>>, decrypt: string -> Result<string>,
                          acquire: nat -> string -> Result<Option<string>>)
    ensures FailsLikeGetAccessToken((k: nat) => GetAccessToken(secret(k), decrypt, acquire(k)))
  {
    var token := (k: nat) => GetAccessToken(secret(k), decrypt, acquire(k));
    forall k: nat | token(k).Err? ensures token(k) == Fail(AuthFailedMessage) {
      assert token(k) == GetAccessToken(secret(k), decrypt, acquire(k));
    }
  }

  predicate IsUnauthorized(e: Error) {
    e.statusCode == Some(401)
  }

  /** The outcome of one `fetchGraph` call together with how many tokens it
      acquired and how many times it ran the callback. */
  datatype Trace<T> = Trace(result: Result<T>, tokens: nat, attempts: nat)

  /** What `fetchGraph` does, given the outcome `token(k)` of the k-th token
      acquisition and the outcome `call(k, accessToken)` of the k-th attempt. */
  function Fetch<T>(token: nat -> Result<string>, call: (nat, string) -> Result<T>): (t: Trace<T>)
    ensures t.tokens <= 2 && t.attempts <= 2 && t.attempts <= t.tokens
    ensures token(1).Err? ==> t == Trace(Err(token(1).error), 1, 0)
    // A success, or a failure other than 401, ends the call after one attempt.
    ensures token(1).Ok? && (call(1, token(1).value).Ok? || !IsUnauthorized(call(1, token(1).value).error)) ==>
      t == Trace(call(1, token(1).value), 1, 1)
    // A second token is fetched exactly when the first attempt got a 401 ...
    ensures t.tokens == 2 <==>
      token(1).Ok? && call(1, token(1).value).Err? && IsUnauthorized(call(1, token(1).value).error)
    // ... and whatever the second attempt gives is final, even another 401.
    ensures t.attempts == 2 ==> token(2).Ok? && t.result == call(2, token(2).value)
    ensures t.tokens == 2 && token(2).Err? ==> t == Trace(Err(token(2).error), 2, 1)
  {
    match token(1)
    case Err(e) => Trace(Err(e), 1, 0)
    case Ok(first) =>
      var r := call(1, first);
      if r.Ok? || !IsUnauthorized(r.error) then Trace(r, 1, 1)
      else
        match token(2)
        case Err(e) => Trace(Err(e), 2, 1)
        case Ok(second) => Trace(call(2, second), 2, 2)
  }

  /** `fetchGraph(userId, scopes, callback)`: fetch a token, run the callback, and
      on a 401 fetch a fresh token and run it once more. */
  method FetchGraph<T>(token: nat -> Result<string>, call: (nat, string) -> Result<T>)
    returns (r: Result<T>, tokens: nat, attempts: nat)
    ensures Trace(r, tokens, attempts) == Fetch(token, call)
  {
    var accessToken := token(1);
    tokens, attempts := 1, 0;
    if accessToken.Err? {
      return Err(accessToken.error), tokens, attempts;
    }
    var client := accessToken.value;
    r := call(1, client);
    attempts := 1;
    if r.Err? && r.error.statusCode == Some(401) {
      accessToken := token(2);
      tokens := 2;
      if accessToken.Err? {
        return Err(accessToken.error), tokens, attempts;
      }
      client := accessToken.value;
      r := call(2, client);
      attempts := 2;
    }
  }

  /** A request whose k-th attempt is refused with `fails(k)` and otherwise
      answers `value`. */
  function Answer<T>(fails: nat -> Option<Error>, value: T): (nat, string) -> Result<T> {
    (k: nat, accessToken: string) => if fails(k).Some? then Err(fails(k).value) else Ok(value)
  }

  /** Whether a request that performs a change went through: the change is made
      by exactly the attempt that succeeds. */
  function Performed(token: nat -> Result<string>, fails: nat -> Option<Error>): Result<()> {
    Fetch(token, Answer(fails, ())).result
  }

  // ---------------------------------------------------------------------------
  // Message rules

  datatype RuleActions = RuleActions(forwardTo: seq<string>, stopProcessingRules: bool, delete: Option<bool>)

  /** An Inbox message rule; `conditions` is the conditions object (empty matches
      every message) and `actions` may be missing on rules made elsewhere. */
  datatype MessageRule = MessageRule(
    id: nat,
    displayName: Option<string>,
    sequence: int,
    isEnabled: bool,
    conditions: seq<Field>,
    actions: Option<RuleActions>)

  const RulePrefix := "Auto-forward to "

  /** The display name that identifies the forwarding rule for an address. */
  function RuleName(forwardTo: string): (name: string)
    ensures StartsWith(name, RulePrefix) && name[|RulePrefix|..] == forwardTo
  {
    RulePrefix + forwardTo
  }

  /** The rule `createForwardingRule` posts (the server fills in the id). */
  function RuleBody(rule: ForwardingRule): (r: MessageRule)
    ensures r.displayName == Some(RuleName(rule.forwardTo))
    ensures r.sequence == 1 && r.isEnabled == rule.enabled && r.conditions == []
    ensures r.actions.Some? && r.actions.value.forwardTo == [rule.forwardTo]
    ensures r.actions.value.stopProcessingRules
    ensures r.actions.value.delete.Some? <==> !rule.keepCopy
    ensures r.actions.value.delete.Some? ==> r.actions.value.delete.value
  {
    MessageRule(0, Some(RuleName(rule.forwardTo)), 1, rule.enabled, [],
      Some(RuleActions([rule.forwardTo], true, if rule.keepCopy then None else Some(true))))
  }

  /** `ruleBody` as `createForwardingRule` assembles it: the object literal, then
      `actions.delete = true` when no copy is kept. */
  method BuildRuleBody(rule: ForwardingRule) returns (body: MessageRule)
    ensures body == RuleBody(rule)
  {
    var actions := RuleActions([rule.forwardTo], true, None);
    body := MessageRule(0, Some(RuleName(rule.forwardTo)), 1, rule.enabled, [], Some(actions));
    if !rule.keepCopy {
      actions := actions.(delete := Some(true));
      body := body.(actions := Some(actions));
    }
  }

  /** The search of `deleteForwardingRule`: the display name must match exactly. */
  predicate Named(name: string, r: MessageRule) {
    r.displayName == Some(name)
  }

  /** The search of `getForwardingStatus`: the display name starts with the prefix. */
  predicate IsForwardingRule(r: MessageRule) {
    r.displayName.Some? && StartsWith(r.displayName.value, RulePrefix)
  }

  /** The rule list after `deleteForwardingRule(userId, forwardTo)` went through:
      the first rule with the exact name is gone, or nothing changed. */
  function AfterDelete(rules: seq<MessageRule>, forwardTo: string): seq<MessageRule> {
    match FirstIndex(rules, r => Named(RuleName(forwardTo), r))
    case None => rules
    case Some(i) => rules[..i] + rules[i + 1..]
  }

  /** How many rules carry a display name. */
  function CountNamed(rules: seq<MessageRule>, name: string): nat {
    if rules == [] then 0
    else (if Named(name, rules[0]) then 1 else 0) + CountNamed(rules[1..], name)
  }

  lemma {:induction false} CountNamedSplit(a: seq<MessageRule>, b: seq<MessageRule>, name: string)
    ensures CountNamed(a + b, name) == CountNamed(a, name) + CountNamed(b, name)
  {
    if a == [] {
      assert a + b == b;
    } else {
      assert (a + b)[0] == a[0];
      assert (a + b)[1..] == a[1..] + b;
      CountNamedSplit(a[1..], b, name);
    }
  }

  /** No rule carries the name exactly when the search finds none. */
  lemma {:induction false} CountNamedZero(rules: seq<MessageRule>, name: string)
    ensures CountNamed(rules, name) == 0 <==> FirstIndex(rules, r => Named(name, r)).None?
  {
    if rules != [] {
      CountNamedZero(rules[1..], name);
      assert FirstIndex(rules[1..], r => Named(name, r)).None? <==> forall j :: 0 <= j < |rules| - 1 ==> !Named(name, rules[1..][j]);
    }
  }

  /** A delete removes exactly one rule carrying the target name when there is
      one, and none otherwise; every other rule stays, in order. */
  lemma {:induction false} DeleteRemovesAtMostOne(rules: seq<MessageRule>, forwardTo: string)
    ensures var name := RuleName(forwardTo);
      CountNamed(AfterDelete(rules, forwardTo), name) ==
        if CountNamed(rules, name) == 0 then 0 else CountNamed(rules, name) - 1
    ensures |AfterDelete(rules, forwardTo)| == |rules| - (if CountNamed(rules, RuleName(forwardTo)) == 0 then 0 else 1)
  {
    var name := RuleName(forwardTo);
    CountNamedZero(rules, name);
    match FirstIndex(rules, r => Named(name, r))
    case None =>
    case Some(i) =>
      assert rules == rules[..i] + [rules[i]] + rules[i + 1..];
      CountNamedSplit(rules[..i] + [rules[i]], rules[i + 1..], name);
      CountNamedSplit(rules[..i], [rules[i]], name);
      CountNamedSplit(rules[..i], rules[i + 1..], name);
      assert FirstIndex(rules[..i], r => Named(name, r)).None?;
      CountNamedZero(rules[..i], name);
  }

  /** Deleting twice is deleting once, as long as at most one rule has the name
      (which is all `createForwardingRule` alone produces for one address). */
  lemma DeleteIdempotent(rules: seq<MessageRule>, forwardTo: string)
    requires CountNamed(rules, RuleName(forwardTo)) <= 1
    ensures AfterDelete(AfterDelete(rules, forwardTo), forwardTo) == AfterDelete(rules, forwardTo)
  {
    DeleteRemovesAtMostOne(rules, forwardTo);
    CountNamedZero(AfterDelete(rules, forwardTo), RuleName(forwardTo));
  }

  /** Deleting the forwarding to an address right after creating it restores the
      rule list, when no rule had that name before. */
  lemma DeleteUndoesCreate(rules: seq<MessageRule>, rule: ForwardingRule, id: nat)
    requires CountNamed(rules, RuleName(rule.forwardTo)) == 0
    ensures AfterDelete(rules + [RuleBody(rule).(id := id)], rule.forwardTo) == rules
  {
    var name := RuleName(rule.forwardTo);
    var created := RuleBody(rule).(id := id);
    CountNamedZero(rules, name);
    FirstIndexAppend(rules, created, r => Named(name, r));
    assert (rules + [created])[..|rules|] == rules;
  }

  // ---------------------------------------------------------------------------
  // Forwarding status

  /** `{ hasRule, forwardTo?, keepCopy? }`. */
  datatype ForwardingState = ForwardingState(hasRule: bool, forwardTo: Option<string>, keepCopy: Option<bool>)

  const NoRule := ForwardingState(false, None, None)

  /** `actions?.forwardTo?.[0]?.emailAddress?.address`. */
  function FirstAddress(r: MessageRule): Option<string> {
    if r.actions.Some? && |r.actions.value.forwardTo| > 0 then Some(r.actions.value.forwardTo[0]) else None
  }

  /** `!actions?.delete`. */
  function KeepsCopy(r: MessageRule): bool {
    !(r.actions.Some? && r.actions.value.delete == Some(true))
  }

  /** `getForwardingStatus` from the outcome of `listMessageRules`: an error, or no
      rule under the prefix, means no rule; otherwise the first such rule is read. */
  function ForwardingStatus(listed: Result<seq<MessageRule>>): (s: ForwardingState)
    ensures listed.Err? ==> s == NoRule
    ensures listed.Ok? ==> (s.hasRule <==> exists j :: 0 <= j < |listed.value| && IsForwardingRule(listed.value[j]))
    ensures !s.hasRule ==> s == NoRule
    ensures s.hasRule ==>
      (exists j :: 0 <= j < |listed.value| && IsForwardingRule(listed.value[j]) &&
        (forall k :: 0 <= k < j ==> !IsForwardingRule(listed.value[k])) &&
        s == ForwardingState(true, FirstAddress(listed.value[j]), Some(KeepsCopy(listed.value[j]))))
  {
    if listed.Err? then NoRule
    else
      match FirstIndex(listed.value, IsForwardingRule)
      case None => NoRule
      case Some(i) => ForwardingState(true, FirstAddress(listed.value[i]), Some(KeepsCopy(listed.value[i])))
  }

  /** Creating a rule where no forwarding rule exists makes the status report
      exactly the address and the keep-copy choice it was created with. */
  lemma CreateThenStatus(rules: seq<MessageRule>, rule: ForwardingRule, id: nat)
    requires forall j :: 0 <= j < |rules| ==> !IsForwardingRule(rules[j])
    ensures ForwardingStatus(Ok(rules + [RuleBody(rule).(id := id)])) ==
      ForwardingState(true, Some(rule.forwardTo), Some(rule.keepCopy))
  {
    FirstIndexAppend(rules, RuleBody(rule).(id := id), IsForwardingRule);
  }

  // ---------------------------------------------------------------------------
  // The mailbox

  /** The Graph side of one user's mailbox: the Inbox rules, the automatic-reply
      setting and the id the server gives the next rule it stores. */
  class Mailbox {
    var rules: seq<MessageRule>
    var automaticReplies: Option<OofSettings>
    var nextId: nat

    constructor (rules: seq<MessageRule>, automaticReplies: Option<OofSettings>, nextId: nat)
      ensures this.rules == rules && this.automaticReplies == automaticReplies && this.nextId == nextId
    {
      this.rules := rules;
      this.automaticReplies := automaticReplies;
      this.nextId := nextId;
    }

    /** `getCurrentOofSettings(userId)`. */
    method GetCurrentOofSettings(token: nat -> Result<string>, fails: nat -> Option<Error>)
      returns (r: Result<Option<OofSettings>>)
      ensures r == Fetch(token, Answer(fails, automaticReplies)).result
      ensures r.Ok? ==> r.value == automaticReplies
    {
      var tokens, attempts;
      r, tokens, attempts := FetchGraph(token, Answer(fails, automaticReplies));
    }

    /** `setOof(userId, settings)`: the PATCH replaces the automatic-reply setting. */
    method SetOof(token: nat -> Result<string>, fails: nat -> Option<Error>, settings: OofSettings)
      returns (r: Result<()>)
      modifies this
      ensures r == Performed(token, fails)
      ensures automaticReplies == if r.Ok? then Some(settings) else old(automaticReplies)
      ensures rules == old(rules) && nextId == old(nextId)
    {
      var tokens, attempts;
      r, tokens, attempts := FetchGraph(token, Answer(fails, ()));
      if r.Ok? {
        automaticReplies := Some(settings);
      }
    }

    /** `listMessageRules(userId)`. */
    method ListMessageRules(token: nat -> Result<string>, fails: nat -> Option<Error>)
      returns (r: Result<seq<MessageRule>>)
      ensures r == Fetch(token, Answer(fails, rules)).result
      ensures r.Ok? ==> r.value == rules
    {
      var tokens, attempts;
      r, tokens, attempts := FetchGraph(token, Answer(fails, rules));
    }

    /** `createForwardingRule(userId, rule)`: the server appends the posted rule
      under a fresh id. */
    method CreateForwardingRule(token: nat -> Result<string>, fails: nat -> Option<Error>, rule: ForwardingRule)
      returns (r: Result<()>)
      modifies this
      ensures r == Performed(token, fails)
      ensures r.Ok? ==> rules == old(rules) + [RuleBody(rule).(id := old(nextId))] && nextId == old(nextId) + 1
      ensures r.Err? ==> rules == old(rules) && nextId == old(nextId)
      ensures automaticReplies == old(automaticReplies)
    {
      var body := BuildRuleBody(rule);
      var tokens, attempts;
      r, tokens, attempts := FetchGraph(token, Answer(fails, ()));
      if r.Ok? {
        rules := rules + [body.(id := nextId)];
        nextId := nextId + 1;
      }
    }

    /** `deleteForwardingRule(userId, forwardTo)`: list, find the exact name, and
      delete that rule if there is one. */
    method DeleteForwardingRule(token: nat -> Result<string>, fails: nat -> Option<Error>, forwardTo: string)
      returns (r: Result<()>)
      modifies this
      ensures r == Performed(token, fails)
      ensures rules == if r.Ok? then AfterDelete(old(rules), forwardTo) else old(rules)
      ensures automaticReplies == old(automaticReplies) && nextId == old(nextId)
    {
      var tokens, attempts;
      r, tokens, attempts := FetchGraph(token, Answer(fails, ()));
      if r.Ok? {
        var found := FirstIndex(rules, x => Named(RuleName(forwardTo), x));
        if found.Some? {
          rules := rules[..found.value] + rules[found.value + 1..];
        }
      }
    }

    /** `getForwardingStatus(userId)`. */
    method GetForwardingStatus(token: nat -> Result<string>, fails: nat -> Option<Error>)
      returns (s: ForwardingState)
      ensures s == ForwardingStatus(Fetch(token, Answer(fails, rules)).result)
      ensures Fetch(token, Answer(fails, rules)).result.Err? ==> !s.hasRule
    {
      var listed := ListMessageRules(token, fails);
      s := ForwardingStatus(listed);
    }
  }

  // ---------------------------------------------------------------------------
  // User search results

  /** A directory entry as Graph returns it; absent properties arrive as `null`. */
  datatype DirectoryUser = DirectoryUser(displayName: Option<string>, mail: Option<string>, userPrincipalName: Option<string>)

  /** One combobox entry `{ value, label, email, name }`. */
  datatype UserOption = UserOption(value: Option<string>, labelText: string, email: Option<string>, name: Option<string>)

  /** `${x}` of a property that may be `null`. */
  function Shown(o: Option<string>): string {
    match o
    case None => "null"
    case Some(s) => s
  }

  /** `user.mail || user.userPrincipalName`. */
  function AddressOf(u: DirectoryUser): (a: Option<string>)
    ensures Truthy(u.mail) ==> a == u.mail
    ensures !Truthy(u.mail) ==> a == u.userPrincipalName
  {
    if Truthy(u.mail) then u.mail else u.userPrincipalName
  }

  /** The mapping at the end of `searchUsers`. */
  function ToOption(u: DirectoryUser): UserOption {
    var address := AddressOf(u);
    UserOption(address, Shown(u.displayName) + " (" + Shown(address) + ")", address, u.displayName)
  }

  /** `(response.value || []).map(...)`. */
  function SearchResults(value: Option<seq<DirectoryUser>>): (r: seq<UserOption>)
    ensures value.None? ==> r == []
    ensures value.Some? ==> |r| == |value.value| && forall i :: 0 <= i < |r| ==> r[i] == ToOption(value.value[i])
  {
    match value
    case None => []
    case Some(users) => seq(|users|, i requires 0 <= i < |users| => ToOption(users[i]))
  }

  /** Every entry's value and e-mail are the same address, preferring the mail
      address, and its label text shows that address. */
  lemma SearchResultShowsAddress(u: DirectoryUser)
    ensures ToOption(u).value == ToOption(u).email == AddressOf(u)
    ensures ToOption(u).name == u.displayName
    ensures Contains(ToOption(u).labelText, Shown(AddressOf(u)))
  {
    var a := Shown(AddressOf(u));
    ContainsSelf(a);
    ContainsInfix(Shown(u.displayName) + " (", a, ")", a);
  }

  // ---------------------------------------------------------------------------
  // The directory search request

  /** The `/users` query as Graph answers it for the bearer token a request
      carries: the `value` list, or an error (401 for a token it does not accept). */
  type Directory = string -> Result<Option<seq<DirectoryUser>>>

  /** The mapped answer, or the error re-thrown. */
  function SearchAnswer(answer: Result<Option<seq<DirectoryUser>>>): (r: Result<seq<UserOption>>)
    ensures r.Ok? <==> answer.Ok?
    ensures r.Ok? ==> r.value == SearchResults(answer.value)
    ensures r.Err? ==> r.error == answer.error
  {
    match answer
    case Ok(value) => Ok(SearchResults(value))
    case Err(e) => Err(e)
  }

  /** `searchUsers(userId, query)` as written: the client is built by
      `getGraphClient(userId)`, so the user id itself goes out as the bearer
      token and no access token is ever acquired. */
  function SearchUsersAsWritten(userId: string, directory: Directory): (r: Result<seq<UserOption>>)
    ensures r.Ok? <==> directory(userId).Ok?
    ensures r.Ok? ==> r.value == SearchResults(directory(userId).value)
    ensures r.Err? ==> r.error == directory(userId).error
  {
    SearchAnswer(directory(userId))
  }

  /** `searchUsers` as the other Graph calls are made: through `fetchGraph`, with
      the acquired access token as the bearer and the single retry on a 401. */
  function SearchUsers(token: nat -> Result<string>, directory: Directory): (r: Result<seq<UserOption>>)
    ensures token(1).Err? ==> r == Err(token(1).error)
    ensures token(1).Ok? && directory(token(1).value).Ok? ==> r == SearchAnswer(directory(token(1).value))
    ensures token(1).Ok? && directory(token(1).value).Err? && !IsUnauthorized(directory(token(1).value).error) ==>
      r == Err(directory(token(1).value).error)
  {
    var t := Fetch(token, (k: nat, accessToken: string) => directory(accessToken));
    match t.result
    case Ok(value) => Ok(SearchResults(value))
    case Err(e) => Err(e)
  }

  const UnauthorizedError := Error("InvalidAuthenticationToken", Some(401))

  /** A directory that accepts only the access token `granted`, holding no users. */
  function OnlyGranted(granted: string): Directory {
    (bearer: string) => if bearer == granted then Ok(Some([])) else Err(UnauthorizedError)
  }

  /** As written, a signed-in user whose access token the directory accepts still
      gets a 401: the request carries "user-1", not the token. */
  lemma SearchAsWrittenRejected()
    ensures SearchUsersAsWritten("user-1", OnlyGranted("token-1")) == Err(UnauthorizedError)
  {
    assert "user-1" != "token-1" by {
      assert "user-1"[0] != "token-1"[0];
    }
  }

  /** With the access token as the bearer, the same user and directory get an
      answer. */
  lemma CorrectedSearchAccepted(token: nat -> Result<string>)
    requires token(1) == Ok("token-1")
    ensures SearchUsers(token, OnlyGranted("token-1")) == Ok([])
  {
  }
}
