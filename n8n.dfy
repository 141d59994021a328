/** The n8n webhook client (app/lib/n8n.ts): the configuration guard, the
    timestamp stamped on every payload, the HMAC-SHA256 signature over the exact
    body sent, the status check, and the verification of a signature.

    HMAC-SHA256 (RFC 2104, section 2, with SHA-256) is the parameter `hmac(message,
    key)`; `JSON.stringify` is `serialize`; `fetch` is `send`. */
module Webhook {
  import opened Common

  const NotConfiguredMessage := "n8n webhook URL or signature secret not configured"

  /** N8N_WEBHOOK_URL and N8N_SIGNATURE_SECRET. */
  datatype Config = Config(url: Option<string>, secret: Option<string>)

  /** The POST `fetch` makes: URL, `x-signature` header and body (the content type
      is always 'application/json'). */
  datatype Request = Request(url: string, signature: string, body: string)

  /** What comes back: `ok`, `status`, the text, and the parsed JSON (parsing may fail). */
  datatype Response = Response(ok: bool, status: nat, text: string, json: Result<Json>)

  /** `N8nPayload` without a timestamp, as the routes build it. */
  function Payload(subjectId: string, upn: string, action: string, data: Json): (p: seq<Field>)
    ensures Keys(p) == ["subjectId", "upn", "action", "data"]
  {
    [Field("subjectId", JStr(subjectId)), Field("upn", JStr(upn)), Field("action", JStr(action)), Field("data", data)]
  }

  /** `{ ...payload, timestamp: now }`. */
  function Stamped(payload: seq<Field>, now: string): (r: seq<Field>)
    ensures Get(r, "timestamp") == JStr(now)
    ensures forall k :: k != "timestamp" ==> Get(r, k) == Get(payload, k)
  {
    Assign(payload, "timestamp", JStr(now))
  }

  /** The stamp replaces a timestamp the caller supplied, in place, and adds a key
      only when there was none. */
  lemma StampOverridesTimestamp(payload: seq<Field>, now: string)
    ensures "timestamp" in Keys(payload) ==> Keys(Stamped(payload, now)) == Keys(payload)
    ensures "timestamp" !in Keys(payload) ==> Keys(Stamped(payload, now)) == Keys(payload) + ["timestamp"]
    ensures Get(Stamped(payload, now), "timestamp") == JStr(now)
  {
  }

  /** `verifyN8nSignature(body, signature)`: false when no secret is configured,
      otherwise plain equality with the expected signature. */
  function VerifySignature(secret: Option<string>, hmac: (string, string) -> string, body: string, signature: string): (ok: bool)
    ensures !Truthy(secret) ==> !ok
    ensures Truthy(secret) ==> (ok <==> signature == hmac(body, secret.value))
  {
    Truthy(secret) && signature == hmac(body, secret.value)
  }

  /** A body signed with the configured secret verifies, and no other signature
      of that body does. */
  lemma SignedBodyVerifies(secret: string, hmac: (string, string) -> string, body: string, signature: string)
    requires secret != ""
    ensures VerifySignature(Some(secret), hmac, body, hmac(body, secret))
    ensures signature != hmac(body, secret) ==> !VerifySignature(Some(secret), hmac, body, signature)
  {
  }

  /** The error text for a response that is not OK. */
  function StatusMessage(status: nat, text: string): (m: string)
    ensures StartsWith(m, "n8n webhook returned ")
  {
    "n8n webhook returned " + NatToString(status) + ": " + text
  }

  /** What `postToN8n` yields once the request has been made. */
  function Outcome(reply: Result<Response>): (r: Result<Json>)
    ensures reply.Err? ==> r == Err(reply.error)
    ensures reply.Ok? && !reply.value.ok ==> r == Fail(StatusMessage(reply.value.status, reply.value.text))
    ensures reply.Ok? && reply.value.ok ==> r == reply.value.json
  {
    match reply
    case Err(e) => Err(e)
    case Ok(resp) => if !resp.ok then Fail(StatusMessage(resp.status, resp.text)) else resp.json
  }

  /** The body `postToN8n` sends: the stamped payload, serialised. */
  function Body(payload: seq<Field>, now: string, serialize: Json -> string): string {
    serialize(JObj(Stamped(payload, now)))
  }

  /** What `postToN8n` resolves to, or the error it throws. */
  function PostOutcome(config: Config, payload: seq<Field>, now: string, serialize: Json -> string,
                       hmac: (string, string) -> string, send: Request -> Result<Response>): (r: Result<Json>)
    ensures !Truthy(config.url) || !Truthy(config.secret) ==> r == Fail(NotConfiguredMessage)
    ensures Truthy(config.url) && Truthy(config.secret) ==>
      var body := Body(payload, now, serialize);
      r == Outcome(send(Request(config.url.value, hmac(body, config.secret.value), body)))
  {
    if !Truthy(config.url) || !Truthy(config.secret) then Fail(NotConfiguredMessage)
    else
      var body := Body(payload, now, serialize);
      Outcome(send(Request(config.url.value, hmac(body, config.secret.value), body)))
  }

  /** `postToN8n(payload)` at time `now`: refuse without configuration, otherwise
      stamp, serialise, sign that very body, send once and check the status.
      `sent` is the one request made, if any. */
  method PostToN8n(config: Config, payload: seq<Field>, now: string,
                   serialize: Json -> string, hmac: (string, string) -> string,
                   send: Request -> Result<Response>)
    returns (r: Result<Json>, sent: Option<Request>)
    ensures !Truthy(config.url) || !Truthy(config.secret) ==> r == Fail(NotConfiguredMessage) && sent.None?
    ensures Truthy(config.url) && Truthy(config.secret) ==>
      var body := Body(payload, now, serialize);
      && sent == Some(Request(config.url.value, hmac(body, config.secret.value), body))
      && r == Outcome(send(sent.value))
    ensures r == PostOutcome(config, payload, now, serialize, hmac, send)
    ensures sent.Some? ==> VerifySignature(config.secret, hmac, sent.value.body, sent.value.signature)
  {
    if !Truthy(config.url) || !Truthy(config.secret) {
      return Fail(NotConfiguredMessage), None;
    }
    var fullPayload := Stamped(payload, now);
    var body := serialize(JObj(fullPayload));
    var signature := hmac(body, config.secret.value);
    var request := Request(config.url.value, signature, body);
    sent := Some(request);
    var response := send(request);
    if response.Err? {
      return Err(response.error), sent;
    }
    if !response.value.ok {
      var errorText := response.value.text;
      return Fail(StatusMessage(response.value.status, errorText)), sent;
    }
    r := response.value.json;
  }
}
