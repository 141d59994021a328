# OOO Dashboard — a verified model of its core

The OOO Dashboard is a Next.js application that lets a Microsoft 365 user manage
their automatic replies ("out of office") and mail forwarding. Each change runs
through one of two back ends. The first calls the Microsoft Graph API directly
with the user's refresh token, which is stored encrypted in Appwrite. The second
posts a signed payload to an n8n webhook. Every change is recorded in an audit log.

This project models that core in Dafny and proves properties of the model.

| file | module | models |
|---|---|---|
| `common.dfy` | `Common` | Option/Result, ASCII `toLowerCase`, `includes`, `split`/`join`, `trim`, a JSON value |
| `validators.dfy` | `Validators` | `app/lib/validators.ts`: the zod schemas and the two domain checks |
| `crypto.dfy` | `Vault` | `app/lib/crypto.ts`: key check, `IV ‖ tag ‖ ciphertext` framing around AES-256-GCM |
| `logger.dfy` | `Logger` | `app/lib/logger.ts`: redaction, the log-line object, the debug gate |
| `graph.dfy` | `Graph` | `app/lib/graph.ts`: token errors, retry once on 401, Inbox rules, forwarding status, search results |
| `appwrite.dfy` | `Store` | `app/lib/appwrite.ts`: profiles, audit logs and secrets over an in-memory database |
| `n8n.dfy` | `Webhook` | `app/lib/n8n.ts`: guard, timestamp, signature, status check, verification |
| `auth.dfy` | `Auth` | `app/lib/auth.ts`: the `signIn` callback, `getCurrentUser`, `requireAuth`, `requireAdmin` |
| `execution.dfy` | `Execution` | what both mutating routes share: mode choice, the n8n call, the audit record, the error status |
| `oof_route.dfy` | `OofRoute` | `app/app/api/oof/route.ts` |
| `forwarding_route.dfy` | `ForwardingRoute` | `app/app/api/forwarding/route.ts` |
| `oof_form.dfy` | `OofForm` | `app/components/dashboard/out-of-office-settings.tsx`: the submit logic and the user filter |
| `nav.dfy` | `Nav` | `app/components/dashboard/nav.tsx`: which navigation items are highlighted |
| `setup.dfy` | `Setup` | `scripts/setup-appwrite.js` and `scripts/setup-appwrite-direct.js`: `.env` loading, missing variables, `exec`, 409 handling |
| `seed.dfy` | `Seed` | `infra/appwrite/seed.js`: collection permissions, create-if-missing |
| `wire.dfy` | `Wire` | the JSON between the form and the routes: how the routes read a body, what the form sends |

How the model is built:

- Stateful stores are classes whose fields the methods update in place.
  - `Graph.Mailbox` holds the Inbox rules and the automatic-reply setting.
  - `Store.Database` holds the three Appwrite collections.
  - `Setup.Process` holds `process.env`.
  - `Seed.Server` holds the Appwrite server.
  - Each method's postcondition gives the new state as a function of the old one. Separate lemmas prove what the source promises about those functions.
- External collaborators are parameters. This covers MSAL, the Graph HTTP client, `fetch`, HMAC-SHA256, the AEAD cipher, base64, `JSON.stringify`, the clock, and the Appwrite SDK's failures.
  - Graph calls are driven by two oracles. `token(k)` is the outcome of the k-th token acquisition. `fails(k)` is the outcome of the k-th attempt.
  - Store failures are `fault` arguments.
- A route handler is split in two.
  - A pure `Prepare…` function covers authentication, validation, mode choice and, for forwarding, the 403 gate. It returns `Reject(reply)` or `Proceed(job, input)`.
  - A method runs the back end. It then calls `Execution.Conclude`, which appends exactly one audit record (unless the store fails, which `createAuditLog` swallows) and computes the reply.

Where the written description of the system and the code disagree, the model
follows the code:

- Validation failures (zod errors, an unknown mode) are answered with HTTP 500, not 400. A handler's catch chooses 401 only when the message contains "Authentication" and 500 otherwise; only the DELETE route's missing `forwardTo` gives 400.
- The Graph token error "Failed to authenticate. Please sign in again." has a lower-case "authenticate", so an expired sign-in is answered with 500, not 401. `Graph.AccessTokenOracle` shows that tokens from `getAccessToken` fail only with that message. `OofRoute.ExpiredSignInIs500` then derives the 500 reply for a Graph-mode POST.
- Refresh tokens are stored at sign-in only. Nothing rotates or re-saves them when an access token is refreshed.

## Model

| member | source | states |
|---|---|---|
| Validators.ParseStatus | app/lib/validators.ts:11 | exactly 'disabled', 'alwaysEnabled' and 'scheduled' are accepted, and the parsed status prints back as the given name |
| Validators.StatusRoundTrip | app/lib/validators.ts:11 | every status survives the round trip through its wire name |
| Validators.ParseOofSettings | app/lib/validators.ts:10-32 | settings are accepted iff present, with a known status and, when scheduled, both bounds; accepted fields are copied unchanged; a scheduled status without both bounds fails with the refinement's message |
| Validators.UnscheduledAlwaysAccepted | app/lib/validators.ts:22-28 | the refinement lets every disabled or always-enabled setting through, whatever its bounds |
| Validators.ParseMode | app/lib/validators.ts:50 | only "graph" and "n8n" are execution modes; anything else fails with the enum message |
| Validators.ParseForwardingRule | app/lib/validators.ts:39-43 | a rule is accepted iff present with a valid address; keepCopy and enabled default to true |
| Validators.DomainOf | app/lib/validators.ts:91 | the domain is undefined exactly when the address has no '@' |
| Validators.DomainOfAddress | app/lib/validators.ts:108-109 | for `local@domain` the domain found is the lower-cased domain |
| Validators.ValidateSameDomain | app/lib/validators.ts:86-93 | without an allowed domain every address passes; with one, an address without '@' fails |
| Validators.SameDomainForAddress | app/lib/validators.ts:86-93 | with a domain configured, `local@domain` passes iff the domains agree ignoring case |
| Validators.ValidateExternalForwarding | app/lib/validators.ts:98-119 | valid iff external forwarding is 'true' or both domains agree; valid iff no error; the error names the user's domain |
| Validators.ExternalForwardingReflexive | app/lib/validators.ts:104-118 | forwarding to one's own address is always allowed |
| Validators.ExternalForwardingByDomain | app/lib/validators.ts:102-118 | between two addresses the gate passes iff external forwarding is on or the domains agree ignoring case |
| Vault.GetEncryptionKey | app/lib/crypto.ts:17-31 | the key is accepted iff the variable is set and decodes to 32 bytes; each failure has its own message |
| Vault.GeneratedKeyAccepted | app/lib/crypto.ts:84-86 | a generated key passes the key check |
| Vault.Frame | app/lib/crypto.ts:49-53 | the frame is as long as IV, tag and ciphertext together |
| Vault.Unframe | app/lib/crypto.ts:66-69 | the three slices put back together are the input; with at least 32 bytes the IV and the tag have 16 bytes each |
| Vault.UnframeFrame | app/lib/crypto.ts:49-53 | slicing undoes framing when IV and tag have 16 bytes |
| Vault.Encrypt | app/lib/crypto.ts:37-56 | encryption fails iff the key check fails (with its error); otherwise it returns the base64 text of the frame around the sealed UTF-8 plaintext |
| Vault.EncryptedTextIsSealing | app/lib/crypto.ts:37-56 | with a correct codec the returned text decodes to IV ‖ 16-byte tag ‖ ciphertext, starting with the IV |
| Vault.Decrypt | app/lib/crypto.ts:62-78 | decryption propagates the key error; otherwise it decodes the base64 text, opens the sliced frame and reads the plaintext as UTF-8 |
| Vault.DecryptedTextIsOpening | app/lib/crypto.ts:62-78 | with a correct codec, text decryption succeeds iff the byte-level opening does, giving its UTF-8 reading, and fails with the cipher's message otherwise |
| Vault.DecryptEncrypt | app/lib/crypto.ts:37-78 | on bytes, opening the sealing of p under the same key gives p back |
| Vault.DecryptEncryptText | app/lib/crypto.ts:37-78 | decrypt(encrypt(p)) == p for text, under the same key and a correct base64 and UTF-8 codec |
| Vault.OnlyAuthenticFramesOpen | app/lib/crypto.ts:71-75 | a frame of at least 32 bytes that decrypts is exactly the encryption of its plaintext under its own IV |
| Vault.TamperedNeverOpensToOriginal | app/lib/crypto.ts:62-78 | a frame of at least 32 bytes with the same IV that decrypts to p is the untouched encryption of p |
| Logger.Redact | app/lib/logger.ts:30-58 | redaction keeps arrays as arrays of the same length, objects as objects with the same keys in order, and every other value unchanged |
| Logger.RedactIsClean | app/lib/logger.ts:39-55 | after redaction no sensitive key, at any depth, holds anything but '[REDACTED]' |
| Logger.RedactEntryCases | app/lib/logger.ts:42-51 | each entry keeps its key and position; its value becomes '[REDACTED]' under a sensitive key, the redaction of a nested value otherwise, and is kept when primitive |
| Logger.RedactItemAt | app/lib/logger.ts:35-37 | each array element is redacted in place |
| Logger.RedactCleanUnchanged | app/lib/logger.ts:30-58 | a value with nothing sensitive in it is left exactly as it is |
| Logger.RedactIdempotent | app/lib/logger.ts:30-58 | redacting twice is redacting once |
| Logger.SensitiveByKey | app/lib/logger.ts:43-45 | a key containing a sensitive key, ignoring case, is sensitive |
| Logger.EmbeddedKeySensitive | app/lib/logger.ts:15-25 | any key with a sensitive key inside it (such as 'clientSecret') is sensitive, in any letter case |
| Logger.NotSensitiveWhen | app/lib/logger.ts:15-25 | a key of at most ten characters with no 'c', 'k' or 'w' is not sensitive |
| Logger.BaseKeyNotSensitive | app/lib/logger.ts:67-72 | 'timestamp', 'level' and 'message' are not redacted |
| Logger.RedactSensitive | app/lib/logger.ts:30-58 | the loop over an object's entries and the map over an array compute the redaction |
| Logger.RedactItems | app/lib/logger.ts:35-37 | mapping the array gives the redaction of the array |
| Logger.RedactEntries | app/lib/logger.ts:39-55 | the loop filling `redacted` gives the redaction of the object, entry by entry in order |
| Logger.RedactEntry | app/lib/logger.ts:43-51 | one entry: the marker under a sensitive key, a nested value redacted, anything else kept |
| Logger.Emits | app/lib/logger.ts:76-101 | debug writes only when NODE_ENV is 'development'; the other levels always write |
| Logger.LogLineIsClean | app/lib/logger.ts:63-72 | nothing sensitive from the context reaches a log line |
| Graph.AccessTokenOracle | app/lib/graph.ts:50-82 | tokens obtained by `getAccessToken` fail only with 'Failed to authenticate. Please sign in again.' |
| Graph.GetAccessToken | app/lib/graph.ts:50-82 | a token comes back iff the secret exists, decrypts and MSAL returns a result; every failure becomes the single 'Failed to authenticate. Please sign in again.' |
| Graph.Fetch | app/lib/graph.ts:98-119 | at most two tokens and two attempts; a second token only after a 401 from the first attempt; a non-401 failure propagates after one attempt; the second attempt's outcome is final, even another 401 |
| Graph.FetchGraph | app/lib/graph.ts:98-119 | the imperative retry computes exactly `Fetch`'s trace (result, tokens, attempts) |
| Graph.RuleName | app/lib/graph.ts:171 | the rule name is 'Auto-forward to ' followed by the address |
| Graph.RuleBody | app/lib/graph.ts:170-190 | the created rule: that name, sequence 1, isEnabled = enabled, empty conditions, exactly one forward address, stopProcessingRules, and delete set iff no copy is kept |
| Graph.BuildRuleBody | app/lib/graph.ts:170-190 | the object literal followed by the optional `delete = true` is that rule |
| Graph.DeleteRemovesAtMostOne | app/lib/graph.ts:207-221 | a delete removes exactly one rule with the exact name when there is one and nothing otherwise |
| Graph.DeleteIdempotent | app/lib/graph.ts:207-221 | deleting twice is deleting once when at most one rule has the name |
| Graph.DeleteUndoesCreate | app/lib/graph.ts:169-221 | deleting right after creating restores the rule list |
| Graph.ForwardingStatus | app/lib/graph.ts:227-255 | an error or no prefixed rule gives exactly `{ hasRule: false }` with no address or keep-copy; otherwise hasRule holds and the address and keep-copy come from the first prefixed rule, as `rules.find` picks it |
| Graph.CreateThenStatus | app/lib/graph.ts:235-250 | after creating a rule where none existed, the status reports its address and keep-copy choice |
| Graph.Mailbox.GetCurrentOofSettings | app/lib/graph.ts:124-131 | the automatic-reply setting read through the retry wrapper |
| Graph.Mailbox.SetOof | app/lib/graph.ts:136-146 | the setting is replaced exactly when the PATCH goes through; rules are untouched |
| Graph.Mailbox.ListMessageRules | app/lib/graph.ts:151-158 | the rule list read through the retry wrapper |
| Graph.Mailbox.CreateForwardingRule | app/lib/graph.ts:163-196 | on success the rule body is appended under a fresh id; on failure nothing changes |
| Graph.Mailbox.DeleteForwardingRule | app/lib/graph.ts:201-222 | on success the first exactly named rule is removed; on failure nothing changes |
| Graph.Mailbox.GetForwardingStatus | app/lib/graph.ts:227-255 | the status of the listed rules; a failed listing reports no rule instead of failing |
| Graph.AddressOf | app/lib/graph.ts:305 | the mail address when set, the user principal name otherwise |
| Graph.SearchResults | app/lib/graph.ts:304-309 | one option per directory user, in order; none when the answer has no value |
| Graph.SearchResultShowsAddress | app/lib/graph.ts:304-309 | value and email are the same address, name is the display name, and the label shows the address |
| Graph.SearchAnswer | app/lib/graph.ts:292-312 | a directory answer is mapped to the options; an error is re-thrown unchanged |
| Graph.SearchUsersAsWritten | app/lib/graph.ts:284-313 | the search answers exactly what the directory gives the user id used as a bearer token |
| Graph.SearchAsWrittenRejected | app/lib/graph.ts:289 | a directory that accepts only the access token answers the search with 401 |
| Graph.SearchUsers | app/lib/graph.ts:98-119 | searching through `fetchGraph`: a token failure propagates, and otherwise the first token's answer is mapped (a non-401 error re-thrown) |
| Graph.CorrectedSearchAccepted | app/lib/graph.ts:98-119 | the same directory answers the search when the acquired token is the bearer |
| Store.ProfileLookup | app/lib/appwrite.ts:54-79 | no profile iff no document has the user id; a found profile has that id and a non-empty time zone and role |
| Store.ProfileDefaults | app/lib/appwrite.ts:72-73 | a profile stored without time zone or role reads back with 'America/New_York' and 'user' |
| Store.ApplyUpdate | app/lib/appwrite.ts:98-120 | the fields an update gives, `userId` included, replace the stored ones; the others and the document id stay |
| Store.UpdateReadsBack | app/lib/appwrite.ts:98-120 | an update that leaves `userId` alone reads back under that id with the new fields and the defaults |
| Store.RenamedProfileGone | app/lib/appwrite.ts:98-120 | an update that rewrites the `userId` of the user's only profile leaves nothing under the old id |
| Store.ByDateDesc | app/lib/appwrite.ts:167 | the same records, newest first |
| Store.AuditListingSpec | app/lib/appwrite.ts:156-187 | the listing holds only the user's stored records, newest first, at most `limit`; fewer than `limit` means all of them |
| Store.AuditListingNewest | app/lib/appwrite.ts:165-169 | no record left out is newer than the last one listed |
| Store.SecretLookup | app/lib/appwrite.ts:192-217 | null iff no document matches user and provider; otherwise the value of a matching document |
| Store.UpsertKeepsUnique | app/lib/appwrite.ts:219-272 | saving never creates a second document for a (user, provider) pair |
| Store.UpsertThenLookup | app/lib/appwrite.ts:219-272 | after a save the pair reads back the saved value and every other pair reads what it did before |
| Store.UpsertStamps | app/lib/appwrite.ts:238-265 | a new document has equal createdAt and updatedAt; an update changes only the value and updatedAt |
| Store.DeleteThenLookup | app/lib/appwrite.ts:274-300 | after a delete the pair has no value; deleting an absent pair changes nothing |
| Store.Database.GetProfile | app/lib/appwrite.ts:54-79 | the user's profile, or the store error |
| Store.Database.CreateProfile | app/lib/appwrite.ts:81-96 | the profile is appended as a new document, or the error propagates and nothing changes |
| Store.Database.UpdateProfile | app/lib/appwrite.ts:98-127 | 'Profile not found' when the user has none; otherwise the user's first document receives the update |
| Store.Database.CreateAuditLog | app/lib/appwrite.ts:132-154 | the record is appended with its timestamp; a store failure is swallowed |
| Store.Database.GetAuditLogs | app/lib/appwrite.ts:156-187 | the listing with limit 50 by default; [] when the store fails |
| Store.Database.GetSecret | app/lib/appwrite.ts:192-217 | the stored value or null, or the store error |
| Store.Database.SaveSecret | app/lib/appwrite.ts:219-272 | the secrets are upserted and the pair reads back the new value; pairs stay unique |
| Store.Database.DeleteSecret | app/lib/appwrite.ts:274-300 | the pair's document is removed and reads back null; pairs stay unique |
| Webhook.Payload | app/lib/n8n.ts:16-22 | a payload carries subjectId, upn, action and data |
| Webhook.Stamped | app/lib/n8n.ts:42-45 | the timestamp is set to now and every other field is kept |
| Webhook.StampOverridesTimestamp | app/lib/n8n.ts:42-45 | a caller's timestamp is replaced in place; otherwise the key is added last |
| Webhook.VerifySignature | app/lib/n8n.ts:90-101 | false without a secret; otherwise true iff the signature equals the HMAC of the body |
| Webhook.SignedBodyVerifies | app/lib/n8n.ts:99-100 | the body's own signature verifies and no other signature does |
| Webhook.StatusMessage | app/lib/n8n.ts:67 | the error text starts with 'n8n webhook returned ' |
| Webhook.Outcome | app/lib/n8n.ts:65-77 | a transport error propagates, a non-OK status becomes the status message, an OK response gives its JSON |
| Webhook.PostOutcome | app/lib/n8n.ts:36-85 | without URL or secret the call fails with the configuration message; otherwise the outcome of sending the signed, stamped body |
| Webhook.PostToN8n | app/lib/n8n.ts:36-85 | no request without configuration; otherwise exactly one request whose signature is the HMAC of the very body sent, so it verifies |
| Auth.UserIdOf | app/lib/auth.ts:45 | the user id, or the provider account id when it is missing |
| Auth.TokenToSave | app/lib/auth.ts:44 | a refresh token is stored only under the 'msal' strategy and only when the account has one |
| Auth.NewProfile | app/lib/auth.ts:57-63 | a new profile: that id, the name or else the e-mail, the default time zone and role 'user' |
| Auth.CreatedProfileReadsBack | app/lib/auth.ts:53-64 | the created profile is what the next lookup finds |
| Auth.SignIn | app/lib/auth.ts:37-71 | refused without account or e-mail; the token is upserted when due; true iff every step succeeds; a first sign-in creates exactly the new profile; success means a profile exists |
| Auth.CurrentUser | app/lib/auth.ts:102-124 | null unless the strategy is 'msal' and a session user exists; errors give null; otherwise that user's profile |
| Auth.RequireAuth | app/lib/auth.ts:129-137 | fails with 'Authentication required' exactly when there is no user |
| Auth.RequireAdmin | app/lib/auth.ts:142-150 | passes iff the user's role is 'admin'; otherwise the matching message |
| Auth.FirstSignInIsNotAdmin | app/lib/auth.ts:57-63 | a freshly signed-in user is authenticated but not an administrator |
| Execution.StatusFor | app/app/api/oof/route.ts:113 | 401 iff the message contains 'Authentication' (case-sensitive), 500 otherwise |
| Execution.Caught | app/app/api/oof/route.ts:108-115 | the outer catch answers with that status and the message, or the fallback for an empty message |
| Execution.NoCapitalAIs500 | app/app/api/oof/route.ts:113 | a message without a capital 'A' is never 401 |
| Execution.AuthenticationRequiredIs401 | app/lib/auth.ts:133 | requireAuth's error is answered with 401 |
| Execution.TokenFailureIs500 | app/lib/graph.ts:80 | the Graph token error is answered with 500 |
| Execution.GraphTokenFailureIs500 | app/lib/graph.ts:80 | a Graph-mode change whose first token request fails as `getAccessToken` does is answered 500 with the sign-in message |
| Execution.ValidationMessageIs500 | app/app/api/oof/route.ts:50-51 | every schema message is answered with 500 |
| Execution.ErrorText | app/app/api/oof/route.ts:93 | the audited error text is never empty and is the message when there is one |
| Execution.ChooseMode | app/app/api/oof/route.ts:15 | the requested mode wins, then EXECUTION_MODE, then 'graph'; an unknown name fails with the enum message |
| Execution.GraphOutcome | app/app/api/oof/route.ts:63-66 | a Graph call that went through yields the message; its error is kept |
| Execution.Notify | app/app/api/oof/route.ts:69-74 | the n8n branch posts {subjectId, upn, action, data} for the user and yields the webhook's outcome |
| Execution.AuditFor | app/app/api/oof/route.ts:78-104 | the record names the user, action and mode and keeps the payload; 'success' with the response iff the job succeeded, 'error' with the error text otherwise |
| Execution.ReplyFor | app/app/api/oof/route.ts:88-106 | success returns the result; an error is rethrown to the outer catch |
| Execution.AuditMatchesReply | app/app/api/oof/route.ts:76-114 | the record says 'success' exactly when the answer is 200 |
| Execution.Conclude | app/app/api/oof/route.ts:76-107 | exactly one audit record is appended (unless the store fails) and nothing else in the store changes |
| OofRoute.SettingsJson | app/app/api/oof/route.ts:84 | the audited settings carry their status name |
| OofRoute.OofView | app/app/api/oof/route.ts:25-37 | GET answers the stored setting, or the caught error |
| OofRoute.HandleGet | app/app/api/oof/route.ts:20-39 | 401 without a user; otherwise the mailbox's setting read through the retry wrapper |
| OofRoute.PrepareSet | app/app/api/oof/route.ts:45-51 | the handler goes on iff there is a user, a body, valid settings and a valid mode; the job carries the validated settings |
| OofRoute.HandlePost | app/app/api/oof/route.ts:44-116 | a rejected request changes nothing; otherwise one audit record, the reply for the outcome, and the setting replaced only in Graph mode on success |
| OofRoute.ExpiredSignInIs500 | app/app/api/oof/route.ts:108-114 | a valid Graph-mode POST with an expired sign-in is answered 500 'Failed to authenticate. Please sign in again.' |
| OofRoute.UnauthenticatedIs401 | app/app/api/oof/route.ts:46 | an anonymous POST is answered 401 with 'Authentication required' |
| OofRoute.InvalidInputIs500 | app/app/api/oof/route.ts:50-51 | invalid settings or an unknown mode are answered 500 |
| OofRoute.DefaultsToGraph | app/app/api/oof/route.ts:51 | with no requested and no configured mode, valid settings go to Graph |
| ForwardingRoute.RuleJson | app/app/api/forwarding/route.ts:94 | the audited rule carries its address |
| ForwardingRoute.StateJson | app/app/api/forwarding/route.ts:28-31 | the status object carries hasRule |
| ForwardingRoute.HandleGet | app/app/api/forwarding/route.ts:21-40 | 401 without a user; otherwise always a success with the forwarding status |
| ForwardingRoute.PreparePost | app/app/api/forwarding/route.ts:46-61 | goes on iff there is a user, a valid rule, a valid mode and the external-forwarding gate passes; the gate's refusal is 403 with its error |
| ForwardingRoute.HandlePost | app/app/api/forwarding/route.ts:45-126 | a rejected request changes nothing; otherwise one audit record, the reply, and the rule created only in Graph mode on success |
| ForwardingRoute.PrepareDelete | app/app/api/forwarding/route.ts:133-145 | a missing forwardTo is 400 before the mode is read; otherwise goes on iff the mode is valid |
| ForwardingRoute.HandleDelete | app/app/api/forwarding/route.ts:131-210 | a rejected request changes nothing; otherwise one audit record, the reply, and the rule removed only in Graph mode on success |
| ForwardingRoute.OwnAddressPassesGate | app/app/api/forwarding/route.ts:55-61 | forwarding to one's own valid address always passes the gate |
| ForwardingRoute.OtherDomainRefused | app/app/api/forwarding/route.ts:55-61 | with external forwarding off, another domain is refused with 403 |
| ForwardingRoute.InvalidInputIs500 | app/app/api/forwarding/route.ts:51-52 | an invalid rule or unknown mode is answered 500 |
| ForwardingRoute.GuardStatuses | app/app/api/forwarding/route.ts:138-143 | anonymous requests get 401; a signed-in DELETE without forwardTo gets 400 |
| OofForm.BreakLines | app/components/dashboard/out-of-office-settings.tsx:81 | a message without newlines is unchanged |
| OofForm.BreakLinesAppend | app/components/dashboard/out-of-office-settings.tsx:81 | the replacement distributes over concatenation |
| OofForm.BreakLinesHasNoNewline | app/components/dashboard/out-of-office-settings.tsx:81 | no newline survives the replacement |
| OofForm.BreakLinesJoinsLines | app/components/dashboard/out-of-office-settings.tsx:81 | the replacement joins the message's lines with '</p><p>' |
| OofForm.HtmlMessage | app/components/dashboard/out-of-office-settings.tsx:81 | empty for an empty message, otherwise one paragraph per line |
| OofForm.BuildPayload | app/components/dashboard/out-of-office-settings.tsx:58-95 | scheduled iff both days and times are set; otherwise always-enabled iff there is a message; bounds sent only when scheduled; both messages are the HTML; mode 'graph' |
| OofForm.ForwardingChoice | app/components/dashboard/out-of-office-settings.tsx:110-130 | POST with the address when forwarding is on with an address, DELETE when it is off, nothing otherwise |
| OofForm.Submit | app/components/dashboard/out-of-office-settings.tsx:53-139 | the settings are posted first; on failure nothing else is sent and the error is shown; on success the forwarding request follows |
| OofForm.FilteredUsers | app/components/dashboard/out-of-office-settings.tsx:142-144 | exactly the users whose label contains the query, ignoring case |
| OofForm.FilteredUsersAppend | app/components/dashboard/out-of-office-settings.tsx:142-144 | filtering a concatenation is the concatenation of the filtered parts, so order is kept |
| OofForm.FilteredUsersOne | app/components/dashboard/out-of-office-settings.tsx:142-144 | one user is kept once exactly when it matches, and dropped otherwise |
| OofForm.EmptyQueryKeepsAll | app/components/dashboard/out-of-office-settings.tsx:142-144 | an empty search keeps every user in order |
| OofForm.QueryCaseIgnored | app/components/dashboard/out-of-office-settings.tsx:142-144 | the query's letter case does not matter |
| Nav.ActiveIffAtOrBelow | app/components/dashboard/nav.tsx:19 | an item is active exactly on its page and the pages below it |
| Nav.NoBoundaryNotActive | app/components/dashboard/nav.tsx:19 | a path continuing the href without '/' does not activate it |
| Nav.SiblingPathNotActive | app/components/dashboard/nav.tsx:9 | '/dashboard/oofx' does not highlight "Out of Office" |
| Nav.NestedItemImpliesParent | app/components/dashboard/nav.tsx:19 | an item below another is never active without it |
| Nav.ActiveFlags | app/components/dashboard/nav.tsx:18-19 | one flag per item, set iff the item is active |
| Nav.OverviewStaysActive | app/components/dashboard/nav.tsx:7-11 | on the out-of-office and forwarding pages two items are active at once |
| Setup.StripQuotes | scripts/setup-appwrite-direct.js:37 | stripping never lengthens the value |
| Setup.StripQuotesQuoted | scripts/setup-appwrite-direct.js:37 | one leading and one trailing quote (' or ") are removed |
| Setup.StripQuotesUnquoted | scripts/setup-appwrite-direct.js:37 | an unquoted value is kept |
| Setup.ParseLine | scripts/setup-appwrite-direct.js:34-37 | a line is skipped iff blank after trimming or starting with '#'; a key never contains '=' |
| Setup.ParseAssignment | scripts/setup-appwrite-direct.js:36-37 | `key=value` gives the key and the unquoted value, even when the value contains '=' |
| Setup.ParseWithoutEquals | scripts/setup-appwrite-direct.js:36-37 | a line without '=' assigns the empty string |
| Setup.LastAssignmentWins | scripts/setup-appwrite-direct.js:33-40 | a key ends up with the value of its last line |
| Setup.UnassignedKept | scripts/setup-appwrite-direct.js:33-40 | keys no line assigns keep their earlier value |
| Setup.Process.LoadEnv | scripts/setup-appwrite-direct.js:22-48 | true iff some candidate exists; only the first existing file is applied, line by line; otherwise the environment is unchanged (scripts/setup-appwrite.js:39-65 has the same loader) |
| Setup.Missing | scripts/setup-appwrite-direct.js:60-61 | the report lists exactly the required keys that are unset or empty (scripts/setup-appwrite.js:87-88 has the same filter) |
| Setup.MissingAppend | scripts/setup-appwrite-direct.js:61 | the filter keeps the order of `required`: the report for a + b is the report for a followed by the report for b |
| Setup.MissingOne | scripts/setup-appwrite-direct.js:61 | a single key is reported exactly when it is unset or empty |
| Setup.MissingExtremes | scripts/setup-appwrite.js:88 | nothing is missing when every key is set; everything, in order, when none is |
| Setup.LoadedKeyNotMissing | scripts/setup-appwrite.js:55 | a key a file sets to a non-empty value is not reported |
| Setup.Exec | scripts/setup-appwrite.js:27-37 | true on success, false on failure when ignoring errors, the error otherwise |
| Setup.CreateStep | scripts/setup-appwrite-direct.js:88-97 | a 409 means "already exists" and the script goes on; any other error stops it |
| Setup.AttributeStep | scripts/setup-appwrite-direct.js:136-142 | an attribute is added, already there (409), or only warned about |
| Setup.AddAttributes | scripts/setup-appwrite-direct.js:128-143 | every attribute gets its own note whatever happened before it |
| Setup.RerunIsHarmless | scripts/setup-appwrite-direct.js:88-143 | a second run against a complete database stops nowhere |
| Seed.CollectionPermissions | infra/appwrite/seed.js:135-159 | 'secrets' gets none; 'profiles' read(any), create(users), update(users); 'auditLogs' read(any), create(users); others read(any) |
| Seed.OnlySecretsHidden | infra/appwrite/seed.js:137-139 | every collection but 'secrets' is readable by anyone; 'secrets' grants nothing |
| Seed.OnlyProfilesUpdatable | infra/appwrite/seed.js:142-156 | only profiles can be updated by users; audit logs can be created but never updated |
| Seed.EveryKeyProcessed | infra/appwrite/seed.js:73-108 | every attribute or index is created or logged, exactly once |
| Seed.AllCreatedWithoutFailures | infra/appwrite/seed.js:73-130 | without failures everything is created in order and nothing is logged |
| Seed.UnknownTypeLogged | infra/appwrite/seed.js:99-100 | an attribute of unknown type is never created |
| Seed.Lookup | infra/appwrite/seed.js:33 | a lookup succeeds iff the resource exists and the call does not fail; absence is 404 |
| Seed.ExistingNotRecreated | infra/appwrite/seed.js:49-56 | an existing database or collection is never re-created |
| Seed.Server.CreateDatabase | infra/appwrite/seed.js:31-44 | created only after a 404; any other lookup error propagates |
| Seed.Server.CreateCollection | infra/appwrite/seed.js:46-133 | an existing collection is skipped, a non-404 error propagates, otherwise it is created with its permissions and the created attributes and indexes, failures listed |
| Seed.Server.Populate | infra/appwrite/seed.js:58-130 | the creating half: the collection with its permissions, then exactly the attributes and indexes that went through, failures listed in order |
| Seed.Server.AddAttributes | infra/appwrite/seed.js:73-108 | the attribute loop creates the known, accepted attributes in order and logs the rest |
| Seed.Server.AddIndexes | infra/appwrite/seed.js:111-130 | the index loop creates the accepted indexes in order and logs the rest |
| Wire.ReadOptString | app/lib/validators.ts:12-13 | an optional string field passes iff absent or a string, and then reads as itself |
| Wire.ReadOptBool | app/lib/validators.ts:41-42 | an optional boolean field passes iff absent or a boolean |
| Wire.ReadBound | app/lib/validators.ts:14-21 | a schedule bound passes iff absent or an object with string dateTime and timeZone; anything else that is not an object fails with "Expected object, received …" |
| Wire.ReadSettings | app/lib/validators.ts:10-21 | `settings` passes the type checks iff absent or an object whose fields all have their schema types; it then reads field by field |
| Wire.ReadMode | app/app/api/oof/route.ts:51 | a string mode is passed on; a falsy one leaves the choice to the default |
| Wire.ReadSetOofRequest | app/app/api/oof/route.ts:47-51 | the request is read from `body.settings` and `body.mode`; a settings type error is the request's error; a `null` body throws |
| Wire.ReadRule | app/lib/validators.ts:39-43 | a rule object with a string forwardTo and optional booleans reads as that rule; an absent rule is none |
| Wire.ReadCreateRequest | app/app/api/forwarding/route.ts:48-52 | the request is read from `body.rule` and `body.mode` |
| Wire.StringBoundRefused | app/lib/validators.ts:14-17 | a bound given as a string fails with "Expected object, received string", answered 500 |
| Wire.ScheduledFormRefused | app/components/dashboard/out-of-office-settings.tsx:62-101 | every scheduled request the form builds is refused by POST /api/oof with 500 |
| Wire.UnscheduledFormAccepted | app/components/dashboard/out-of-office-settings.tsx:76-101 | disabled and always-enabled requests from the form go through with the form's status and message |
| Wire.ObjectBoundRead | app/lib/validators.ts:14-21 | a bound written as `{ dateTime, timeZone }` reads back as that pair |
| Wire.CorrectedSettingsRead | app/lib/validators.ts:10-21 | the corrected settings object reads back as the form's status, messages and bounds |
| Wire.CorrectedScheduleAccepted | app/app/api/oof/route.ts:47-51 | with bounds as objects every request the form builds goes on in Graph mode, with its status, messages and bounds |
| Wire.FormForwardingRefused | app/components/dashboard/out-of-office-settings.tsx:110-118 | the form's forwarding request is refused with 500 'Required' whatever the address |
| Wire.CorrectedForwardingAccepted | app/app/api/forwarding/route.ts:51-61 | with the address under `rule.forwardTo` the request goes on iff the address is valid and passes the gate, keeping a copy and enabled |
| Wire.FormClearRefused | app/components/dashboard/out-of-office-settings.tsx:123-129 | the form's request to clear forwarding is always answered 400 |
| Wire.CorrectedClearAccepted | app/app/api/forwarding/route.ts:135-145 | with `?forwardTo=…` clearing goes on in Graph mode for that address, and is refused only for an empty address |

## Left out

- I/O, the console and logging output, `process.exit`, timers and the half-second pauses in the seeder are not modelled.
- Concurrency is not modelled. Requests are handled one at a time, and the read-then-write in `saveSecret` and `updateProfile` is treated as atomic.
- The cryptographic primitives are parameters: AES-256-GCM, HMAC-SHA256 and random bytes. Base64 and UTF-8 are a `Vault.Codec` parameter, and `Vault.CodecCorrect` states their round trips. `Vault.AeadCorrect` states the AEAD properties the framing relies on. The signature comparison is plain equality, as in the source, so timing is not modelled.
- MSAL, the Graph HTTP client, `fetch`, `getServerSession` and the Appwrite SDK are oracles: outcome parameters or in-memory classes.
- `JSON.stringify` is a parameter of the n8n call. Audit payloads are kept as JSON values rather than their text.
- Dates and times are not modelled: `toISOString`, the form's date/time combination (a parameter `combine`), timestamps (numbers handed in), and log timestamps.
- zod's e-mail check is approximated by `Validators.IsEmail`.
- zod's error message is the JSON text of its issue list. The model uses the issue's own message. In the source that text also echoes the rejected value, so a value containing "Authentication" would be answered 401; the model answers 500.
- `toLowerCase` and `trim` are modelled on ASCII only.
- `getMsalClient` and `exchangeCodeForTokens` (graph.ts:21-44, 261-278) are not modelled. `getAccessToken`'s `acquire` parameter stands for both the client build and the exchange.
- The Graph filter string, `select` and `top(10)` in `searchUsers` (graph.ts:292-299) are not modelled; the directory answer is a parameter. Its catch only logs and rethrows.
- Vault.OnlyAuthenticFramesOpen: promises nothing for frames shorter than 32 bytes. Their tag is 4 to 15 bytes, which Node's GCM decipher accepts without `authTagLength`, so authenticity rests on a shorter tag; `Vault.AeadCorrect` makes no claim about such tags.
- Vault.TamperedNeverOpensToOriginal: promises nothing for frames shorter than 32 bytes, for the same reason.
- The NextAuth `jwt` and `session` callbacks (auth.ts:72-88) are not modelled. `Auth.CurrentUser` receives the session's user id as a parameter.
- `app/app/api/users/route.ts` is not part of this model.
- `app/lib/appwrite-client.ts` is not part of this model.
- The pages, layouts and JSX rendering are not modelled.
- The setup scripts' CLI steps are not modelled.
- The `userId_index` step of setup-appwrite-direct.js (lines 146-153) is not modelled. It reports a 409 and passes over any other error without a word.
- `seed.js`'s `main` is not modelled. It runs `createDatabase` and then `createCollection` for each collection, stopping at the first error.
- The collection definitions read from `collections.json` are inputs.
- `OofForm.Submit` does not model a `fetch` that throws. It returns the requests it chooses; their JSON bodies are in `Wire`.
- `Wire` reports the first field that fails its type check. zod collects every failing field into one error. The status code is the same either way.
- A request body that is not valid JSON is the `Err` case of the handlers' `body` argument.
- `Graph.Mailbox.GetCurrentOofSettings` returns the stored setting itself. The Graph response's wider `mailboxSettings` object is not modelled.

## Findings

| source | as written | input that shows it | evidently intended | confidence | as-written member | corrected member |
|---|---|---|---|---|---|---|
| app/components/dashboard/out-of-office-settings.tsx:62-95 | a scheduled reply sends `scheduledStartDateTime` and `scheduledEndDateTime` as ISO strings, but the schema at app/lib/validators.ts:14-21 wants `{ dateTime, timeZone }` objects, so POST /api/oof answers 500 | both days and both times filled in, e.g. 2026-01-05 09:00 to 2026-01-09 17:00 | send each bound as `{ dateTime, timeZone }` | not executed; high | Wire.ScheduledFormRefused | Wire.CorrectedScheduleAccepted |
| app/components/dashboard/out-of-office-settings.tsx:110-118 | the forwarding request sends `{ forwardingAddress, mode }`, but the route reads `body.rule` (app/app/api/forwarding/route.ts:51), so it answers 500 'Required' | "Forward e-mails" checked with any address, e.g. alice@contoso.com | send `{ rule: { forwardTo }, mode }` | not executed; high | Wire.FormForwardingRefused | Wire.CorrectedForwardingAccepted |
| app/lib/graph.ts:289 | `searchUsers` builds its client with `getGraphClient(userId)`, which takes an access token (graph.ts:87), so every search sends the user id as the bearer token | any search, e.g. user id "user-1" whose access token is "token-1" | make the call through `fetchGraph(userId, scopes, …)` as the other Graph calls do | not executed; high | Graph.SearchAsWrittenRejected | Graph.CorrectedSearchAccepted |
| app/components/dashboard/out-of-office-settings.tsx:123-129 | clearing forwarding sends DELETE with the mode in a body and no query, but the route requires `?forwardTo=` (app/app/api/forwarding/route.ts:135-143), so it answers 400 | "Forward e-mails" unchecked | pass the address in the query, `?forwardTo=…&mode=graph` | not executed; medium: the form keeps no record of the address it set earlier | Wire.FormClearRefused | Wire.CorrectedClearAccepted |

The corrected bodies in `Wire` are the ones the model's end-to-end statements
rely on, and `Graph.SearchUsers` is the corrected search. `OofForm` itself stays as written: it decides which requests to send,
and `Wire` gives their JSON.
