/** Structured logging (app/lib/logger.ts): redaction of sensitive fields before
    anything is logged, the log-line object, and the level gate of `debug`.
    Console output itself is not modelled. */
module Logger {
  import opened Common

  const SensitiveKeys: seq<string> := [
    "access_token", "accessToken", "refresh_token", "refreshToken",
    "password", "secret", "authorization", "api_key", "apiKey"]

  const RedactedText := "[REDACTED]"

  /** `SENSITIVE_KEYS.some(sk => key.toLowerCase().includes(sk.toLowerCase()))`. */
  predicate IsSensitive(key: string) {
    exists i :: 0 <= i < |SensitiveKeys| && Contains(Lower(key), Lower(SensitiveKeys[i]))
  }

  /** `typeof value === 'object'`: true for null, arrays and objects. */
  predicate IsObjectType(v: Json) {
    v.JNull? || v.JArr? || v.JObj?
  }

  /** The value stored under `key` in the redacted copy of an object. */
  function RedactValue(key: string, value: Json): Json
    decreases value, 1
  {
    if IsSensitive(key) then JStr(RedactedText)
    else if IsObjectType(value) then Redact(value)
    else value
  }

  /** `redactSensitive(obj)` as a value: arrays are mapped, objects are copied key
      by key with sensitive keys replaced, everything else is returned as is. */
  function Redact(v: Json): (r: Json)
    decreases v, 0
    ensures v.JArr? <==> r.JArr?
    ensures v.JArr? ==> |r.items| == |v.items|
    ensures v.JObj? <==> r.JObj?
    ensures v.JObj? ==> Keys(r.fields) == Keys(v.fields)
    ensures !v.JArr? && !v.JObj? ==> r == v
  {
    match v
    case JArr(items) =>
      JArr(seq(|items|, i requires 0 <= i < |items| => Redact(items[i])))
    case JObj(fields) =>
      JObj(seq(|fields|, i requires 0 <= i < |fields| => Field(fields[i].key, RedactValue(fields[i].key, fields[i].value))))
    case _ => v
  }

  /** No sensitive key, at any depth, holds anything but the redaction marker. */
  predicate Clean(v: Json)
    decreases v
  {
    match v
    case JArr(items) => forall i :: 0 <= i < |items| ==> Clean(items[i])
    case JObj(fields) =>
      forall i :: 0 <= i < |fields| ==>
        if IsSensitive(fields[i].key) then fields[i].value == JStr(RedactedText) else Clean(fields[i].value)
    case _ => true
  }

  /** Whatever goes in, nothing sensitive comes out. */
  lemma {:induction false} RedactIsClean(v: Json)
    ensures Clean(Redact(v))
    decreases v
  {
    match v
    case JArr(items) =>
      forall i | 0 <= i < |items| ensures Clean(Redact(v).items[i]) {
        RedactIsClean(items[i]);
      }
    case JObj(fields) =>
      var r := Redact(v);
      forall i | 0 <= i < |fields| && !IsSensitive(fields[i].key) ensures Clean(r.fields[i].value) {
        assert r.fields[i].value == RedactValue(fields[i].key, fields[i].value);
        if IsObjectType(fields[i].value) {
          RedactIsClean(fields[i].value);
        }
      }
    case _ =>
  }

  /** A value that is already clean is left exactly as it is. */
  lemma {:induction false} RedactCleanUnchanged(v: Json)
    requires Clean(v)
    ensures Redact(v) == v
    decreases v
  {
    match v
    case JArr(items) =>
      forall i | 0 <= i < |items| ensures Redact(items[i]) == items[i] {
        RedactCleanUnchanged(items[i]);
      }
      assert Redact(v).items == items;
    case JObj(fields) =>
      forall i | 0 <= i < |fields| ensures RedactValue(fields[i].key, fields[i].value) == fields[i].value {
        if !IsSensitive(fields[i].key) && IsObjectType(fields[i].value) {
          RedactCleanUnchanged(fields[i].value);
        }
      }
      assert Redact(v).fields == fields;
    case _ =>
  }

  /** Redacting twice is redacting once. */
  lemma RedactIdempotent(v: Json)
    ensures Redact(Redact(v)) == Redact(v)
  {
    RedactIsClean(v);
    RedactCleanUnchanged(Redact(v));
  }

  /** A key containing the `i`-th sensitive key, whatever the case, is sensitive. */
  lemma SensitiveByKey(key: string, i: nat, lowered: string)
    requires i < |SensitiveKeys| && Lower(SensitiveKeys[i]) == lowered && Contains(Lower(key), lowered)
    ensures IsSensitive(key)
  {
  }

  /** The matching is by substring, ignoring case: any key with a sensitive key
      inside it (such as 'clientSecret' or 'x-api_key') is sensitive, whatever the
      case of its letters. */
  lemma {:induction false} EmbeddedKeySensitive(before: string, i: nat, after: string)
    requires i < |SensitiveKeys|
    ensures IsSensitive(before + SensitiveKeys[i] + after)
    ensures IsSensitive(Lower(before + SensitiveKeys[i] + after))
  {
    var k := SensitiveKeys[i];
    LowerAppend(before + k, after);
    LowerAppend(before, k);
    ContainsSelf(Lower(k));
    ContainsInfix(Lower(before), Lower(k), Lower(after), Lower(k));
    SensitiveByKey(before + k + after, i, Lower(k));
    LowerIdempotent(before + k + after);
    SensitiveByKey(Lower(before + k + after), i, Lower(k));
  }

  /** A key `k` does not occur in `lk`, lower-cased, when `lk` lacks the `j`-th
      character of `k` (lower-cased) or is shorter than `k`. */
  lemma MissesKey(lk: string, k: string, j: nat)
    requires j < |k|
    requires |lk| < |k| || LowerChar(k[j]) !in lk
    ensures !Contains(lk, Lower(k))
  {
    if |lk| < |k| {
      NotContainsLonger(lk, Lower(k));
    } else {
      NotContainsChar(lk, Lower(k), j);
    }
  }

  /** The sensitive keys longer than ten characters miss any string of at most ten. */
  lemma LongKeysMissed(lk: string, i: nat)
    requires |lk| <= 10 && i < |SensitiveKeys| && i !in {4, 5, 7, 8}
    ensures !Contains(lk, Lower(SensitiveKeys[i]))
  {
    MissesKey(lk, SensitiveKeys[i], 0);
  }

  /** The shorter sensitive keys each hold a 'c', a 'k' or a 'w', in some case. */
  lemma MarkedKeysMissed(lk: string, i: nat)
    requires 'c' !in lk && 'k' !in lk && 'w' !in lk && i in {4, 5, 7, 8}
    ensures !Contains(lk, Lower(SensitiveKeys[i]))
  {
    var k := SensitiveKeys[i];
    if i == 4 {
      assert k == "password";
      MissesKey(lk, k, 4);
    } else if i == 5 {
      assert k == "secret";
      MissesKey(lk, k, 2);
    } else if i == 7 {
      assert k == "api_key";
      MissesKey(lk, k, 4);
    } else {
      assert k == "apiKey";
      MissesKey(lk, k, 3);
    }
  }

  /** A key of at most ten characters with no 'c', 'k' or 'w' in any case is not
      sensitive: every sensitive key is longer, or has one of those letters. */
  lemma {:induction false} NotSensitiveWhen(key: string)
    requires |key| <= 10 && 'c' !in Lower(key) && 'k' !in Lower(key) && 'w' !in Lower(key)
    ensures !IsSensitive(key)
  {
    var lk := Lower(key);
    forall i | 0 <= i < |SensitiveKeys| ensures !Contains(lk, Lower(SensitiveKeys[i])) {
      if i in {4, 5, 7, 8} {
        MarkedKeysMissed(lk, i);
      } else {
        LongKeysMissed(lk, i);
      }
    }
  }

  /** A key of lower-case letters only, at most ten of them and none of them
      'c', 'k' or 'w', is not sensitive. */
  lemma PlainKeyNotSensitive(key: string)
    requires |key| <= 10
    requires forall j :: 0 <= j < |key| ==> 'a' <= key[j] <= 'z' && key[j] != 'c' && key[j] != 'k' && key[j] != 'w'
    ensures !IsSensitive(key)
  {
    LowerIs(key, key);
    NotSensitiveWhen(key);
  }

  /** The three keys every log line starts with are not sensitive. */
  lemma BaseKeyNotSensitive(key: string)
    requires key == "timestamp" || key == "level" || key == "message"
    ensures !IsSensitive(key)
  {
    if key == "timestamp" {
      PlainKeyNotSensitive("timestamp");
    } else if key == "level" {
      PlainKeyNotSensitive("level");
    } else {
      PlainKeyNotSensitive("message");
    }
  }

  /** `redactSensitive`, walking an object's entries in a loop that fills a fresh
      `redacted` object and mapping arrays element by element. */
  method RedactSensitive(v: Json) returns (r: Json)
    ensures r == Redact(v)
    decreases v, 1
  {
    match v {
      case JArr(items) =>
        var mapped := RedactItems(items);
        r := JArr(mapped);
      case JObj(fields) =>
        var redacted := RedactEntries(fields);
        r := JObj(redacted);
      case _ =>
        r := v;
    }
  }

  /** The array branch: each element redacted in turn. */
  method RedactItems(items: seq<Json>) returns (mapped: seq<Json>)
    ensures mapped == Redact(JArr(items)).items
    decreases JArr(items), 0
  {
    mapped := [];
    for i := 0 to |items|
      invariant mapped == seq(i, k requires 0 <= k < i => Redact(items[k]))
    {
      var x := RedactSensitive(items[i]);
      mapped := mapped + [x];
    }
  }

  /** The object branch: the `for...in` loop filling the fresh `redacted` object. */
  method RedactEntries(fields: seq<Field>) returns (redacted: seq<Field>)
    ensures redacted == Redact(JObj(fields)).fields
    decreases JObj(fields), 0
  {
    redacted := [];
    for i := 0 to |fields|
      invariant redacted == Redact(JObj(fields[..i])).fields
    {
      var out := RedactEntry(fields[i].key, fields[i].value);
      RedactEntriesStep(fields, i);
      redacted := redacted + [Field(fields[i].key, out)];
    }
    assert fields[..|fields|] == fields;
  }

  /** Redacting one more entry of an object appends that entry, redacted. */
  lemma RedactEntriesStep(fields: seq<Field>, i: nat)
    requires i < |fields|
    ensures Redact(JObj(fields[..i + 1])).fields
            == Redact(JObj(fields[..i])).fields + [Field(fields[i].key, RedactValue(fields[i].key, fields[i].value))]
  {
    var longer, shorter := Redact(JObj(fields[..i + 1])).fields, Redact(JObj(fields[..i])).fields;
    var x := Field(fields[i].key, RedactValue(fields[i].key, fields[i].value));
    forall k | 0 <= k <= i ensures longer[k] == (shorter + [x])[k] {
      RedactEntryAt(fields[..i + 1], k);
      if k < i {
        RedactEntryAt(fields[..i], k);
      }
    }
  }

  /** Entry by entry, redacting an object keeps each key in place and replaces its
      value by the marker exactly when the key is sensitive; under any other key a
      nested object or array is redacted in turn and any other value is kept. */
  lemma RedactEntryCases(fields: seq<Field>, k: nat)
    requires k < |fields|
    ensures var e, key, value := Redact(JObj(fields)).fields[k], fields[k].key, fields[k].value;
      && e.key == key
      && (IsSensitive(key) ==> e.value == JStr(RedactedText))
      && (!IsSensitive(key) && IsObjectType(value) ==> e.value == Redact(value))
      && (!IsSensitive(key) && !IsObjectType(value) ==> e.value == value)
  {
    RedactEntryAt(fields, k);
  }

  /** Redacting an array redacts each element in place. */
  lemma RedactItemAt(items: seq<Json>, k: nat)
    requires k < |items|
    ensures Redact(JArr(items)).items[k] == Redact(items[k])
  {
  }

  /** The `k`-th entry of a redacted object is the `k`-th entry, redacted. */
  lemma RedactEntryAt(fields: seq<Field>, k: nat)
    requires k < |fields|
    ensures Redact(JObj(fields)).fields[k] == Field(fields[k].key, RedactValue(fields[k].key, fields[k].value))
  {
  }

  /** One entry: the marker under a sensitive key, a nested object or array
      redacted in turn, anything else kept. */
  method RedactEntry(key: string, value: Json) returns (out: Json)
    ensures out == RedactValue(key, value)
    decreases value, 2
  {
    if IsSensitive(key) {
      out := JStr(RedactedText);
    } else if IsObjectType(value) {
      out := RedactSensitive(value);
    } else {
      out := value;
    }
  }

  // ---------------------------------------------------------------------------
  // Log lines

  datatype Level = Debug | Info | Warn | ErrorLevel

  function LevelName(l: Level): string {
    match l
    case Debug => "DEBUG"
    case Info => "INFO"
    case Warn => "WARN"
    case ErrorLevel => "ERROR"
  }

  /** Whether a logger method writes anything: `debug` only when NODE_ENV is
      'development', the other levels always. */
  function Emits(level: Level, nodeEnv: Option<string>): (b: bool)
    ensures level != Debug ==> b
    ensures level == Debug ==> (b <==> nodeEnv == Some("development"))
  {
    level != Debug || nodeEnv == Some("development")
  }

  /** Spreading the (already redacted) context into the log object, entry by entry. */
  function Spread(fields: seq<Field>, context: seq<Field>): seq<Field>
    decreases |context|
  {
    if context == [] then fields
    else Spread(Assign(fields, context[0].key, context[0].value), context[1..])
  }

  /** The object `formatLog` serialises: timestamp, upper-case level and message,
      followed by the redacted context (absent context counts as `{}`). */
  function FormatLog(timestamp: string, level: Level, message: string, context: Option<seq<Field>>): Json {
    var base := [Field("timestamp", JStr(timestamp)), Field("level", JStr(LevelName(level))), Field("message", JStr(message))];
    match context
    case None => JObj(base)
    case Some(ctx) => JObj(Spread(base, Redact(JObj(ctx)).fields))
  }

  /** Assigning a value whose key is sensitive only as the marker, or which is
      clean otherwise, keeps an object clean. */
  lemma {:induction false} AssignClean(fields: seq<Field>, key: string, value: Json)
    requires Clean(JObj(fields))
    requires if IsSensitive(key) then value == JStr(RedactedText) else Clean(value)
    ensures Clean(JObj(Assign(fields, key, value)))
  {
    if fields != [] && fields[0].key != key {
      AssignClean(fields[1..], key, value);
      var r := Assign(fields, key, value);
      assert r == [fields[0]] + Assign(fields[1..], key, value);
      forall i | 0 <= i < |r| && i > 0
        ensures if IsSensitive(r[i].key) then r[i].value == JStr(RedactedText) else Clean(r[i].value)
      {
        assert r[i] == Assign(fields[1..], key, value)[i - 1];
      }
    }
  }

  lemma {:induction false} SpreadClean(fields: seq<Field>, context: seq<Field>)
    requires Clean(JObj(fields)) && Clean(JObj(context))
    ensures Clean(JObj(Spread(fields, context)))
    decreases |context|
  {
    if context != [] {
      assert Clean(JObj(context)) ==>
        if IsSensitive(context[0].key) then context[0].value == JStr(RedactedText) else Clean(context[0].value);
      AssignClean(fields, context[0].key, context[0].value);
      assert Clean(JObj(context[1..])) by {
        forall i | 0 <= i < |context[1..]|
          ensures if IsSensitive(context[1..][i].key) then context[1..][i].value == JStr(RedactedText)
                  else Clean(context[1..][i].value)
        {
          assert context[1..][i] == context[i + 1];
        }
      }
      SpreadClean(Assign(fields, context[0].key, context[0].value), context[1..]);
    }
  }

  /** Nothing sensitive from the context reaches a log line. */
  lemma LogLineIsClean(timestamp: string, level: Level, message: string, context: Option<seq<Field>>)
    ensures Clean(FormatLog(timestamp, level, message, context))
  {
    var base := [Field("timestamp", JStr(timestamp)), Field("level", JStr(LevelName(level))), Field("message", JStr(message))];
    BaseKeyNotSensitive("timestamp");
    BaseKeyNotSensitive("level");
    BaseKeyNotSensitive("message");
    assert Clean(JObj(base));
    if context.Some? {
      RedactIsClean(JObj(context.value));
      SpreadClean(base, Redact(JObj(context.value)).fields);
    }
  }
}
