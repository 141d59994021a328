/** The two database setup scripts (scripts/setup-appwrite.js and
    scripts/setup-appwrite-direct.js): their identical `.env` loader, the check for
    missing variables, `exec`'s ignore-error flag, and the direct script's
    "409 means it already exists" handling. The file system and the child process
    are parameters. */
module Setup {
  import opened Common

  const RequiredKeys: seq<string> := ["APPWRITE_ENDPOINT", "APPWRITE_PROJECT_ID", "APPWRITE_API_KEY"]
  const ConflictCode := 409

  // ---------------------------------------------------------------------------
  // One line of a `.env` file

  predicate IsQuote(c: char) {
    c == '"' || c == '\''
  }

  /** `value.replace(/^["']|["']$/g, '')`: one leading and one trailing quote
      character go, matched or not. */
  function StripQuotes(v: string): (r: string)
    ensures |r| <= |v|
  {
    var w := if v != [] && IsQuote(v[0]) then v[1..] else v;
    if w != [] && IsQuote(w[|w| - 1]) then w[..|w| - 1] else w
  }

  /** A quoted value loses exactly its two quotes. */
  lemma StripQuotesQuoted(open: char, inner: string, close: char)
    requires IsQuote(open) && IsQuote(close)
    ensures StripQuotes([open] + inner + [close]) == inner
  {
    var v := [open] + inner + [close];
    assert v[1..] == inner + [close];
    assert (inner + [close])[..|inner|] == inner;
  }

  /** A value that neither starts nor ends with a quote is kept. */
  lemma StripQuotesUnquoted(v: string)
    requires v == [] || (!IsQuote(v[0]) && !IsQuote(v[|v| - 1]))
    ensures StripQuotes(v) == v
  {
  }

  /** A line is skipped when it is blank after trimming or starts with '#'. */
  predicate Skipped(line: string) {
    var t := Trim(line);
    t == "" || t[0] == '#'
  }

  /** `const [key, ...valueParts] = trimmed.split('=')`, with the value re-joined
      with '=' and its quotes stripped; `None` for a skipped line. */
  function ParseLine(line: string): (r: Option<(string, string)>)
    ensures r.None? <==> Skipped(line)
    ensures r.Some? ==> '=' !in r.value.0
  {
    if Skipped(line) then None
    else
      var parts := Split(Trim(line), '=');
      Some((parts[0], StripQuotes(Join(parts[1..], "="))))
  }

  lemma TrimKeeps(s: string)
    requires s != [] && !IsSpace(s[0]) && !IsSpace(s[|s| - 1])
    ensures Trim(s) == s
  {
  }

  /** A line that is its own trimmed form, split at its first '='. */
  lemma ParseAtFirstEquals(line: string, i: nat)
    requires !Skipped(line) && Trim(line) == line && IndexOf(line, '=') == Some(i)
    ensures ParseLine(line) == Some((line[..i], StripQuotes(line[i + 1..])))
  {
    var parts := Split(line, '=');
    assert ParseLine(line) == Some((parts[0], StripQuotes(Join(parts[1..], "="))));
    SplitRestJoin(line, '=');
    assert parts[0] == line[..i];
    assert Join(parts[1..], "=") == line[i + 1..];
  }

  /** `key=value` gives that key and the value with its quotes stripped, even when
      the value itself contains '='. */
  lemma ParseAssignment(key: string, value: string)
    requires key != [] && '=' !in key && !IsSpace(key[0]) && key[0] != '#'
    requires value == [] || !IsSpace(value[|value| - 1])
    ensures ParseLine(key + "=" + value) == Some((key, StripQuotes(value)))
  {
    var line := key + ['='] + value;
    assert line == key + "=" + value;
    assert line[0] == key[0];
    assert !IsSpace(line[|line| - 1]) by {
      if value != [] {
        assert line[|line| - 1] == value[|value| - 1];
      }
    }
    TrimKeeps(line);
    IndexOfAfter(key, '=', value);
    ParseAtFirstEquals(line, |key|);
    assert line[|key| + 1..] == value;
    assert line[..|key|] == key;
  }

  /** A line without '=' assigns the empty string to the whole trimmed line. */
  lemma ParseWithoutEquals(line: string)
    requires !Skipped(line) && '=' !in Trim(line)
    ensures ParseLine(line) == Some((Trim(line), ""))
  {
    SplitRestJoin(Trim(line), '=');
  }

  // ---------------------------------------------------------------------------
  // Loading a file into the environment

  /** One line applied to the environment: a later key overwrites an earlier one. */
  function ApplyLine(env: map<string, string>, line: string): map<string, string> {
    match ParseLine(line)
    case None => env
    case Some((key, value)) => env[key := value]
  }

  /** The lines applied in order. */
  function ApplyLines(env: map<string, string>, lines: seq<string>): map<string, string>
    decreases |lines|
  {
    if lines == [] then env else ApplyLine(ApplyLines(env, lines[..|lines| - 1]), lines[|lines| - 1])
  }

  /** The value a key ends up with is the one on its last line. */
  lemma {:induction false} LastAssignmentWins(env: map<string, string>, lines: seq<string>, i: nat, key: string, value: string)
    requires i < |lines| && ParseLine(lines[i]) == Some((key, value))
    requires forall j :: i < j < |lines| ==> ParseLine(lines[j]).None? || ParseLine(lines[j]).value.0 != key
    ensures key in ApplyLines(env, lines) && ApplyLines(env, lines)[key] == value
    decreases |lines|
  {
    var last := |lines| - 1;
    var prefix := lines[..last];
    var before := ApplyLines(env, prefix);
    assert ApplyLines(env, lines) == ApplyLine(before, lines[last]);
    if i < last {
      assert prefix[i] == lines[i];
      LastAssignmentWins(env, prefix, i, key, value);
      ApplyLineOther(before, lines[last], key);
    } else {
      ApplyLineAssigns(before, lines[last], key, value);
    }
  }

  lemma ApplyLineAssigns(env: map<string, string>, line: string, key: string, value: string)
    requires ParseLine(line) == Some((key, value))
    ensures ApplyLine(env, line) == env[key := value]
  {
  }

  lemma ApplyLineOther(env: map<string, string>, line: string, key: string)
    requires ParseLine(line).None? || ParseLine(line).value.0 != key
    ensures (key in ApplyLine(env, line)) == (key in env)
    ensures key in env ==> ApplyLine(env, line)[key] == env[key]
  {
  }

  /** Keys no line assigns keep their earlier value. */
  lemma {:induction false} UnassignedKept(env: map<string, string>, lines: seq<string>, key: string)
    requires forall j :: 0 <= j < |lines| ==> ParseLine(lines[j]).None? || ParseLine(lines[j]).value.0 != key
    ensures (key in ApplyLines(env, lines)) == (key in env)
    ensures key in env ==> ApplyLines(env, lines)[key] == env[key]
    decreases |lines|
  {
    if lines != [] {
      var last := |lines| - 1;
      var before := ApplyLines(env, lines[..last]);
      assert ApplyLines(env, lines) == ApplyLine(before, lines[last]);
      UnassignedKept(env, lines[..last], key);
      ApplyLineOther(before, lines[last], key);
    }
  }

  /** `process.env`. */
  class Process {
    var env: map<string, string>

    constructor (env: map<string, string>)
      ensures this.env == env
    {
      this.env := env;
    }

    /** `loadEnv()`: `candidates` holds, in order, the content of each candidate file
        (`app/.env.local`, then `.env.local`), or `None` where it does not exist.
        Only the first existing one is read. */
    method LoadEnv(candidates: seq<Option<string>>) returns (loaded: bool)
      modifies this
      ensures loaded <==> FirstIndex(candidates, (c: Option<string>) => c.Some?).Some?
      ensures !loaded ==> env == old(env)
      ensures loaded ==>
        var i := FirstIndex(candidates, (c: Option<string>) => c.Some?).value;
        env == ApplyLines(old(env), Split(candidates[i].value, '\n'))
    {
      var k := 0;
      while k < |candidates|
        invariant k <= |candidates|
        invariant forall j :: 0 <= j < k ==> candidates[j].None?
        invariant env == old(env)
      {
        if candidates[k].Some? {
          var lines := Split(candidates[k].value, '\n');
          var n := 0;
          while n < |lines|
            invariant n <= |lines|
            invariant env == ApplyLines(old(env), lines[..n])
          {
            assert lines[..n + 1][..n] == lines[..n];
            env := ApplyLine(env, lines[n]);
            n := n + 1;
          }
          assert lines[..n] == lines;
          FirstIndexAt(candidates, k);
          return true;
        }
        k := k + 1;
      }
      return false;
    }
  }

  lemma FirstIndexAt(candidates: seq<Option<string>>, k: nat)
    requires k < |candidates| && candidates[k].Some?
    requires forall j :: 0 <= j < k ==> candidates[j].None?
    ensures FirstIndex(candidates, (c: Option<string>) => c.Some?) == Some(k)
  {
  }

  // ---------------------------------------------------------------------------
  // Required variables

  predicate IsSet(env: map<string, string>, key: string) {
    key in env && env[key] != ""
  }

  /** `required.filter(key => !process.env[key])`. */
  function Missing(required: seq<string>, env: map<string, string>): (r: seq<string>)
    ensures |r| <= |required|
    ensures forall k :: k in r <==> k in required && !IsSet(env, k)
  {
    if required == [] then []
    else (if IsSet(env, required[0]) then [] else [required[0]]) + Missing(required[1..], env)
  }

  /** The report keeps the order of `required`: nothing is missing when every key
      is set, and everything when nothing is. */
  lemma {:induction false} MissingExtremes(required: seq<string>, env: map<string, string>)
    ensures (forall k :: k in required ==> IsSet(env, k)) ==> Missing(required, env) == []
    ensures (forall k :: k in required ==> !IsSet(env, k)) ==> Missing(required, env) == required
  {
    if required != [] {
      MissingExtremes(required[1..], env);
    }
  }

  /** The filter works key by key in the order of `required`: the report for two
      lists one after the other is the report for the first, then for the second. */
  lemma {:induction false} MissingAppend(a: seq<string>, b: seq<string>, env: map<string, string>)
    ensures Missing(a + b, env) == Missing(a, env) + Missing(b, env)
  {
    if a == [] {
      assert a + b == b;
    } else {
      assert (a + b)[1..] == a[1..] + b;
      MissingAppend(a[1..], b, env);
      var head := if IsSet(env, a[0]) then [] else [a[0]];
      calc {
        Missing(a + b, env);
        head + Missing(a[1..] + b, env);
        head + (Missing(a[1..], env) + Missing(b, env));
        (head + Missing(a[1..], env)) + Missing(b, env);
      }
    }
  }

  /** One key is reported, alone, exactly when it is not set. */
  lemma MissingOne(key: string, env: map<string, string>)
    ensures Missing([key], env) == if IsSet(env, key) then [] else [key]
  {
  }

  /** A file that sets a key to a non-empty value removes it from the report. */
  lemma LoadedKeyNotMissing(env: map<string, string>, lines: seq<string>, i: nat, key: string, value: string)
    requires i < |lines| && ParseLine(lines[i]) == Some((key, value)) && value != ""
    requires forall j :: i < j < |lines| ==> ParseLine(lines[j]).None? || ParseLine(lines[j]).value.0 != key
    ensures key !in Missing(RequiredKeys, ApplyLines(env, lines))
  {
    LastAssignmentWins(env, lines, i, key, value);
  }

  // ---------------------------------------------------------------------------
  // Running commands and creating resources

  /** `exec(command, ignoreError)` given how the command ended: true on success,
      false on failure when errors are ignored, and the error otherwise. */
  function Exec(outcome: Result<()>, ignoreError: bool): (r: Result<bool>)
    ensures r == Ok(true) <==> outcome.Ok?
    ensures outcome.Err? && ignoreError ==> r == Ok(false)
    ensures outcome.Err? && !ignoreError ==> r == Err(outcome.error)
  {
    match outcome
    case Ok(_) => Ok(true)
    case Err(e) => if ignoreError then Ok(false) else Err(e)
  }

  datatype Created = NewlyCreated | AlreadyThere

  /** Creating the database or a collection in the direct script: a 409 conflict
      means it already exists and the script goes on; any other error stops it. */
  function CreateStep(outcome: Result<()>): (r: Result<Created>)
    ensures r.Err? <==> outcome.Err? && outcome.error.statusCode != Some(ConflictCode)
    ensures r.Err? ==> r.error == outcome.error
    ensures r == Ok(AlreadyThere) <==> outcome.Err? && outcome.error.statusCode == Some(ConflictCode)
  {
    match outcome
    case Ok(_) => Ok(NewlyCreated)
    case Err(e) => if e.statusCode == Some(ConflictCode) then Ok(AlreadyThere) else Err(e)
  }

  /** What the direct script reports for an attribute: created, already there, or a
      warning with the error text. It never stops the script. (The index step of
      setup-appwrite-direct.js reports only a 409 and passes over any other error
      without a word; it is not modelled.) */
  datatype AttributeNote = Added | Exists | Warned(message: string)

  function AttributeStep(outcome: Result<()>): (n: AttributeNote)
    ensures n == Added <==> outcome.Ok?
    ensures n == Exists <==> outcome.Err? && outcome.error.statusCode == Some(ConflictCode)
  {
    match outcome
    case Ok(_) => Added
    case Err(e) => if e.statusCode == Some(ConflictCode) then Exists else Warned(e.message)
  }

  /** The attribute loop: every attribute is attempted and gets its own note,
      whatever happened to the ones before it. */
  method AddAttributes(outcomes: seq<Result<()>>) returns (notes: seq<AttributeNote>)
    ensures |notes| == |outcomes|
    ensures forall k :: 0 <= k < |outcomes| ==> notes[k] == AttributeStep(outcomes[k])
  {
    notes := [];
    for k := 0 to |outcomes|
      invariant |notes| == k
      invariant forall j :: 0 <= j < k ==> notes[j] == AttributeStep(outcomes[j])
    {
      notes := notes + [AttributeStep(outcomes[k])];
    }
  }

  /** Running the direct script a second time against a complete database is
      harmless: every create answers 409 and nothing stops. */
  lemma RerunIsHarmless(message: string)
    ensures CreateStep(Err(Error(message, Some(ConflictCode)))) == Ok(AlreadyThere)
    ensures AttributeStep(Err(Error(message, Some(ConflictCode)))) == Exists
  {
  }
}
