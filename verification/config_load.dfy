/** `Config::load`: the configuration file (or, without one, a fallback with
    empty required fields) overridden by environment variables, then checked
    for the six required fields. Priority: environment, then file, then
    defaults. */
module ConfigLoad {
  import opened Wrappers
  import opened Numeric
  import opened Text
  import opened Configuration

  /** What is found at the configuration path. Reading and TOML decoding are
      not modelled: a file that exists is either unreadable, not a valid
      configuration, or already decoded. */
  datatype ConfigFile = NoFile | Unreadable | Unparseable | Parsed(config: Config)

  datatype LoadError =
    | ReadFailed
    | ParseFailed
    | InvalidValue(key: string)
    | MissingRequired(field: string)

  /** The process environment: the variables whose values are valid Unicode
      (`env::var` treats any other variable as unset). */
  type Env = map<string, string>

  /** `str::parse::<f64>()`, which is not modelled: the caller supplies it. */
  type FloatParser = string -> Option<F64>

  // ---------------------------------------------------------------------------
  // One override per kind of field

  /** A set variable replaces the value; an unset one leaves it. */
  predicate TextSet(env: Env, key: string, before: string, after: string) {
    after == if key in env then env[key] else before
  }

  predicate SomeSet(env: Env, key: string, before: Option<string>, after: Option<string>) {
    after == if key in env then Some(env[key]) else before
  }

  predicate NumValid(env: Env, key: string, max: nat) {
    key in env ==> ParseUInt(env[key], max).Some?
  }

  predicate NumSet(env: Env, key: string, max: nat, before: nat, after: nat) {
    if key in env then ParseUInt(env[key], max) == Some(after) else after == before
  }

  predicate FloatValid(env: Env, key: string, parseFloat: FloatParser) {
    key in env ==> parseFloat(env[key]).Some?
  }

  predicate FloatSet(env: Env, key: string, parseFloat: FloatParser, before: F64, after: F64) {
    if key in env then parseFloat(env[key]) == Some(after) else after == before
  }

  predicate ListValid(env: Env, key: string) {
    key in env ==> ParseList(env[key]).Some?
  }

  predicate ListSet(env: Env, key: string, before: Option<seq<U64>>, after: Option<seq<U64>>) {
    after == if key in env then ParseList(env[key]) else before
  }

  function OverrideText(env: Env, key: string, current: string): (r: string)
    ensures TextSet(env, key, current, r)
  {
    if key in env then env[key] else current
  }

  function OverrideSome(env: Env, key: string, current: Option<string>): (r: Option<string>)
    ensures SomeSet(env, key, current, r)
  {
    if key in env then Some(env[key]) else current
  }

  /** A numeric override: a set variable must parse as an unsigned integer no
      larger than `max`, or the load fails naming the variable. */
  function OverrideNum(env: Env, key: string, max: nat, current: nat): (r: Result<nat, LoadError>)
    requires current <= max
    ensures r.Ok? <==> NumValid(env, key, max)
    ensures r.Ok? ==> r.value <= max && NumSet(env, key, max, current, r.value)
    ensures r.Err? ==> r.error == InvalidValue(key)
  {
    if key !in env then Ok(current)
    else match ParseUInt(env[key], max)
      case Some(v) => Ok(v)
      case None => Err(InvalidValue(key))
  }

  function OverrideFloat(env: Env, key: string, parseFloat: FloatParser, current: F64): (r: Result<F64, LoadError>)
    ensures r.Ok? <==> FloatValid(env, key, parseFloat)
    ensures r.Ok? ==> FloatSet(env, key, parseFloat, current, r.value)
    ensures r.Err? ==> r.error == InvalidValue(key)
  {
    if key !in env then Ok(current)
    else match parseFloat(env[key])
      case Some(v) => Ok(v)
      case None => Err(InvalidValue(key))
  }

  /** A list override: the value is split on `,`, each piece trimmed and parsed
      as a `u64`; one bad piece fails the load, otherwise the list replaces the
      file's list. */
  function OverrideList(env: Env, key: string, current: Option<seq<U64>>): (r: Result<Option<seq<U64>>, LoadError>)
    ensures r.Ok? <==> ListValid(env, key)
    ensures r.Ok? ==> ListSet(env, key, current, r.value)
    ensures r.Err? ==> r.error == InvalidValue(key)
  {
    if key !in env then Ok(current)
    else match ParseList(env[key])
      case Some(vs) => Ok(Some(vs))
      case None => Err(InvalidValue(key))
  }

  // ---------------------------------------------------------------------------
  // Comma-separated lists

  /** Parses each piece, trimmed, as a `u64`; `None` if any piece fails. */
  function ParsePieces(pieces: seq<string>): (r: Option<seq<U64>>)
    ensures r.Some? <==> forall i :: 0 <= i < |pieces| ==> ParseUInt(Trim(pieces[i]), U64_MAX).Some?
    ensures r.Some? ==> |r.value| == |pieces|
    ensures r.Some? ==> forall i :: 0 <= i < |pieces| ==> ParseUInt(Trim(pieces[i]), U64_MAX) == Some(r.value[i])
    decreases |pieces|
  {
    if |pieces| == 0 then Some([])
    else
      var rest := pieces[1..];
      assert forall i :: 0 < i < |pieces| ==> pieces[i] == rest[i - 1];
      match ParseUInt(Trim(pieces[0]), U64_MAX)
      case None => None
      case Some(v) =>
        match ParsePieces(rest)
        case None => None
        case Some(vs) =>
          var r := [v as U64] + vs;
          assert r[0] == v && forall i :: 0 < i < |pieces| ==> r[i] == vs[i - 1];
          Some(r)
  }

  /** `val.split(',').map(|s| s.trim().parse::<u64>()).collect()`: one number per
      comma-separated piece, in order. */
  function ParseList(val: string): (r: Option<seq<U64>>)
    ensures r.Some? <==> forall i :: 0 <= i < |Split(val, ',')| ==> ParseUInt(Trim(Split(val, ',')[i]), U64_MAX).Some?
    ensures r.Some? ==> |r.value| == |Split(val, ',')| == Count(val, ',') + 1
    ensures r.Some? ==> forall i :: 0 <= i < |r.value| ==> ParseUInt(Trim(Split(val, ',')[i]), U64_MAX) == Some(r.value[i])
  {
    SplitLength(val, ',');
    ParsePieces(Split(val, ','))
  }

  function DecimalList(xs: seq<U64>): (r: seq<string>)
    ensures |r| == |xs| && forall i :: 0 <= i < |xs| ==> r[i] == ToDecimal(xs[i])
  {
    seq(|xs|, i requires 0 <= i < |xs| => ToDecimal(xs[i]))
  }

  lemma DecimalPieces(xs: seq<U64>)
    ensures forall i :: 0 <= i < |xs| ==> ',' !in DecimalList(xs)[i]
    ensures forall i :: 0 <= i < |xs| ==> ParseUInt(Trim(DecimalList(xs)[i]), U64_MAX) == Some(xs[i])
  {
    var parts := DecimalList(xs);
    forall i | 0 <= i < |parts|
      ensures ',' !in parts[i]
      ensures ParseUInt(Trim(parts[i]), U64_MAX) == Some(xs[i])
    {
      assert !IsDigit(',');
      TrimUnchanged(parts[i]);
      ParseToDecimal(xs[i], U64_MAX);
    }
  }

  /** A non-empty list written as comma-separated decimals reads back as itself. */
  lemma ParseListOfDecimals(xs: seq<U64>)
    requires |xs| >= 1
    ensures ParseList(Join(DecimalList(xs), ",")) == Some(xs)
  {
    var parts := DecimalList(xs);
    DecimalPieces(xs);
    var text := Join(parts, ",");
    assert Split(text, ',') == parts by {
      SplitJoin(parts, ',');
      assert [','] == ",";
    }
    ParsePiecesAll(parts, xs);
  }

  /** An empty value is one empty piece, which is not a number: an error. */
  lemma ParseListEmpty()
    ensures ParseList("") == None
  {
    assert Split("", ',') == [""];
    assert Trim("") == "";
    assert ParseUInt("", U64_MAX) == None;
  }

  /** A trailing comma leaves an empty last piece: an error. */
  lemma ParseListTrailingComma()
    ensures ParseList("7,") == None
  {
    assert Split("7,", ',')[1] == "" by {
      assert "7,"[1..] == ",";
      assert ","[1..] == "";
    }
    assert Trim("") == "";
  }

  /** A negative number is not a `u64`: an error. */
  lemma ParseListNegative()
    ensures ParseList("-1") == None
  {
    assert Split("-1", ',') == ["-1"] by {
      SplitNoSeparator("-1", ',');
    }
    assert Trim("-1") == "-1" by {
      TrimUnchanged("-1");
    }
    assert !IsDigit('-');
  }

  /** Pieces that each read as a number read as the list of those numbers. */
  lemma ParsePiecesAll(pieces: seq<string>, xs: seq<U64>)
    requires |pieces| == |xs|
    requires forall i :: 0 <= i < |xs| ==> ParseUInt(Trim(pieces[i]), U64_MAX) == Some(xs[i])
    ensures ParsePieces(pieces) == Some(xs)
  {
    var r := ParsePieces(pieces);
    assert r.Some?;
    assert r.value == xs by {
      assert forall i :: 0 <= i < |xs| ==> r.value[i] == xs[i];
    }
  }

  lemma TrimSpaces(d: char)
    requires IsDigit(d)
    ensures Trim([' ', d, ' ']) == [d] && Trim([' ', d]) == [d]
  {
    assert IsWhitespace(' ') && !IsWhitespace(d);
    assert TrimStart([' ', d, ' ']) == [d, ' '] by { assert [' ', d, ' '][1..] == [d, ' ']; }
    assert TrimEnd([d, ' ']) == [d] by { assert [d, ' '][..1] == [d]; }
    assert TrimStart([' ', d]) == [d] by { assert [' ', d][1..] == [d]; }
  }

  lemma SpacedDigit(piece: string, d: char)
    requires IsDigit(d)
    requires piece == [' ', d, ' '] || piece == [' ', d]
    ensures ParseUInt(Trim(piece), U64_MAX) == Some(DigitValue(d))
  {
    assert Trim(piece) == [d] by { TrimSpaces(d); }
    SingleDigit(d);
  }

  lemma SingleDigit(d: char)
    requires IsDigit(d)
    ensures ParseUInt([d], U64_MAX) == Some(DigitValue(d))
  {
    assert Unsigned([d]) == [d];
    assert DigitsValue([d]) == DigitValue(d) by {
      assert [d][..0] == [];
    }
  }

  /** Two pieces around one comma read as the two numbers they hold. */
  lemma ParseListPair(p: string, q: string, x: U64, y: U64)
    requires ',' !in p && ',' !in q
    requires ParseUInt(Trim(p), U64_MAX) == Some(x as nat)
    requires ParseUInt(Trim(q), U64_MAX) == Some(y as nat)
    ensures ParseList(p + [','] + q) == Some([x, y])
  {
    assert Split(p + [','] + q, ',') == [p, q] by {
      SplitPrefix(p, q, ',');
      SplitNoSeparator(q, ',');
    }
    assert [p, q][0] == p && [p, q][1] == q;
    ParsePiecesAll([p, q], [x, y]);
  }

  /** Spaces around the pieces are ignored: " d , e" reads as the two digits. */
  lemma ParseListSpaces(d: char, e: char)
    requires IsDigit(d) && IsDigit(e)
    ensures ParseList([' ', d, ' '] + [','] + [' ', e]) == Some([DigitValue(d) as U64, DigitValue(e) as U64])
  {
    var p, q := [' ', d, ' '], [' ', e];
    var x, y := DigitValue(d) as U64, DigitValue(e) as U64;
    assert ',' !in p && ',' !in q;
    assert ParseUInt(Trim(p), U64_MAX) == Some(x as nat) by { SpacedDigit(p, d); }
    assert ParseUInt(Trim(q), U64_MAX) == Some(y as nat) by { SpacedDigit(q, e); }
    ParseListPair(p, q, x, y);
  }

  // ---------------------------------------------------------------------------
  // The variables `load` checks, in the order it reads them

  /** A variable whose value, when set, must be well formed: an unsigned
      integer no larger than `max`, a float, or a comma-separated list. */
  datatype Check =
    | NumCheck(key: string, max: nat)
    | FloatCheck(key: string, parseFloat: FloatParser)
    | ListCheck(key: string)

  predicate WellFormed(env: Env, ch: Check) {
    match ch
    case NumCheck(key, max) => NumValid(env, key, max)
    case FloatCheck(key, parseFloat) => FloatValid(env, key, parseFloat)
    case ListCheck(key) => ListValid(env, key)
  }

  predicate AllWellFormed(env: Env, checks: seq<Check>) {
    forall i :: 0 <= i < |checks| ==> WellFormed(env, checks[i])
  }

  /** `i` is the first check whose variable is malformed. */
  predicate FirstMalformed(env: Env, checks: seq<Check>, i: int) {
    && 0 <= i < |checks|
    && !WellFormed(env, checks[i])
    && forall j :: 0 <= j < i ==> WellFormed(env, checks[j])
  }

  /** `e` names the first malformed variable: `load` stops at the first `?`
      that fails. */
  predicate ReportsFirstMalformed(env: Env, checks: seq<Check>, e: LoadError) {
    exists i :: 0 <= i < |checks| && FirstMalformed(env, checks, i) && e == InvalidValue(checks[i].key)
  }

  const SERVICE_CHECKS: seq<Check> := [
    NumCheck("HTTP_PORT", U16_MAX),
    NumCheck("HIEROPHANT_HTTP_PORT", U16_MAX),
    NumCheck("VAST_API_CALL_BACKOFF_SECS", U64_MAX),
    NumCheck("TASK_POLLING_INTERVAL_SECS", U64_MAX),
    NumCheck("CONTEMPLANT_VERIFICATION_TIMEOUT_SECS", U64_MAX),
    NumCheck("NUMBER_INSTANCES", U64_MAX)]

  function QueryChecks(parseFloat: FloatParser): seq<Check> {
    [ NumCheck("VAST_QUERY_ALLOCATED_STORAGE", U16_MAX),
      FloatCheck("VAST_QUERY_RELIABILITY", parseFloat),
      FloatCheck("VAST_QUERY_MIN_CUDA_VERSION", parseFloat),
      NumCheck("VAST_QUERY_GPU_RAM", U64_MAX),
      NumCheck("VAST_QUERY_DISK_SPACE", U64_MAX),
      FloatCheck("VAST_QUERY_DURATION", parseFloat),
      FloatCheck("VAST_QUERY_COST_PER_HOUR", parseFloat) ]
  }

  const LIST_CHECKS: seq<Check> :=
    [ListCheck("BAD_HOSTS"), ListCheck("BAD_MACHINES"), ListCheck("GOOD_HOSTS"), ListCheck("GOOD_MACHINES")]

  const CONTEMPLANT_CHECKS: seq<Check> := [
    NumCheck("CONTEMPLANT_HTTP_PORT", U16_MAX),
    NumCheck("CONTEMPLANT_HEARTBEAT_INTERVAL_SECONDS", U64_MAX),
    NumCheck("CONTEMPLANT_MAX_PROOFS_STORED", U64_MAX),
    NumCheck("CONTEMPLANT_WATCHER_POLLING_INTERVAL_MS", U64_MAX)]

  /** Every checked variable, in the order of the statements of `load`. */
  function EnvChecks(parseFloat: FloatParser): seq<Check> {
    SERVICE_CHECKS + QueryChecks(parseFloat) + LIST_CHECKS + CONTEMPLANT_CHECKS
  }

  /** The checks of the magister's own settings, in order: all pass exactly when the stage's
      variables are well formed, and a malformed variable whose predecessors
      are all well formed is the one reported. */
  lemma ServiceOrder(env: Env)
    ensures AllWellFormed(env, SERVICE_CHECKS) <==> ServiceValid(env)
    ensures && !NumValid(env, "HTTP_PORT", U16_MAX)
            ==> ReportsFirstMalformed(env, SERVICE_CHECKS, InvalidValue("HTTP_PORT"))
    ensures && NumValid(env, "HTTP_PORT", U16_MAX)
            && !NumValid(env, "HIEROPHANT_HTTP_PORT", U16_MAX)
            ==> ReportsFirstMalformed(env, SERVICE_CHECKS, InvalidValue("HIEROPHANT_HTTP_PORT"))
    ensures && NumValid(env, "HTTP_PORT", U16_MAX)
            && NumValid(env, "HIEROPHANT_HTTP_PORT", U16_MAX)
            && !NumValid(env, "VAST_API_CALL_BACKOFF_SECS", U64_MAX)
            ==> ReportsFirstMalformed(env, SERVICE_CHECKS, InvalidValue("VAST_API_CALL_BACKOFF_SECS"))
    ensures && NumValid(env, "HTTP_PORT", U16_MAX)
            && NumValid(env, "HIEROPHANT_HTTP_PORT", U16_MAX)
            && NumValid(env, "VAST_API_CALL_BACKOFF_SECS", U64_MAX)
            && !NumValid(env, "TASK_POLLING_INTERVAL_SECS", U64_MAX)
            ==> ReportsFirstMalformed(env, SERVICE_CHECKS, InvalidValue("TASK_POLLING_INTERVAL_SECS"))
    ensures && NumValid(env, "HTTP_PORT", U16_MAX)
            && NumValid(env, "HIEROPHANT_HTTP_PORT", U16_MAX)
            && NumValid(env, "VAST_API_CALL_BACKOFF_SECS", U64_MAX)
            && NumValid(env, "TASK_POLLING_INTERVAL_SECS", U64_MAX)
            && !NumValid(env, "CONTEMPLANT_VERIFICATION_TIMEOUT_SECS", U64_MAX)
            ==> ReportsFirstMalformed(env, SERVICE_CHECKS, InvalidValue("CONTEMPLANT_VERIFICATION_TIMEOUT_SECS"))
    ensures && NumValid(env, "HTTP_PORT", U16_MAX)
            && NumValid(env, "HIEROPHANT_HTTP_PORT", U16_MAX)
            && NumValid(env, "VAST_API_CALL_BACKOFF_SECS", U64_MAX)
            && NumValid(env, "TASK_POLLING_INTERVAL_SECS", U64_MAX)
            && NumValid(env, "CONTEMPLANT_VERIFICATION_TIMEOUT_SECS", U64_MAX)
            && !NumValid(env, "NUMBER_INSTANCES", U64_MAX)
            ==> ReportsFirstMalformed(env, SERVICE_CHECKS, InvalidValue("NUMBER_INSTANCES"))
  {
    var checks := SERVICE_CHECKS;
    if ServiceValid(env) {
      forall i | 0 <= i < |checks|
        ensures WellFormed(env, checks[i])
      {
        assert i == 0 || i == 1 || i == 2 || i == 3 || i == 4 || i == 5;
      }
    }
    if !WellFormed(env, checks[0]) {
      assert FirstMalformed(env, checks, 0);
    } else if !WellFormed(env, checks[1]) {
      assert FirstMalformed(env, checks, 1) by {
        forall j | 0 <= j < 1
          ensures WellFormed(env, checks[j])
        {
          assert j == 0;
        }
      }
    } else if !WellFormed(env, checks[2]) {
      assert FirstMalformed(env, checks, 2) by {
        forall j | 0 <= j < 2
          ensures WellFormed(env, checks[j])
        {
          assert j == 0 || j == 1;
        }
      }
    } else if !WellFormed(env, checks[3]) {
      assert FirstMalformed(env, checks, 3) by {
        forall j | 0 <= j < 3
          ensures WellFormed(env, checks[j])
        {
          assert j == 0 || j == 1 || j == 2;
        }
      }
    } else if !WellFormed(env, checks[4]) {
      assert FirstMalformed(env, checks, 4) by {
        forall j | 0 <= j < 4
          ensures WellFormed(env, checks[j])
        {
          assert j == 0 || j == 1 || j == 2 || j == 3;
        }
      }
    } else if !WellFormed(env, checks[5]) {
      assert FirstMalformed(env, checks, 5) by {
        forall j | 0 <= j < 5
          ensures WellFormed(env, checks[j])
        {
          assert j == 0 || j == 1 || j == 2 || j == 3 || j == 4;
        }
      }
    }
  }

  /** The checks of the offers search parameters, in order: all pass exactly when the stage's
      variables are well formed, and a malformed variable whose predecessors
      are all well formed is the one reported. */
  lemma QueryOrder(env: Env, parseFloat: FloatParser)
    ensures AllWellFormed(env, QueryChecks(parseFloat)) <==> QueryValid(env, parseFloat)
    ensures && !NumValid(env, "VAST_QUERY_ALLOCATED_STORAGE", U16_MAX)
            ==> ReportsFirstMalformed(env, QueryChecks(parseFloat), InvalidValue("VAST_QUERY_ALLOCATED_STORAGE"))
    ensures && NumValid(env, "VAST_QUERY_ALLOCATED_STORAGE", U16_MAX)
            && !FloatValid(env, "VAST_QUERY_RELIABILITY", parseFloat)
            ==> ReportsFirstMalformed(env, QueryChecks(parseFloat), InvalidValue("VAST_QUERY_RELIABILITY"))
    ensures && NumValid(env, "VAST_QUERY_ALLOCATED_STORAGE", U16_MAX)
            && FloatValid(env, "VAST_QUERY_RELIABILITY", parseFloat)
            && !FloatValid(env, "VAST_QUERY_MIN_CUDA_VERSION", parseFloat)
            ==> ReportsFirstMalformed(env, QueryChecks(parseFloat), InvalidValue("VAST_QUERY_MIN_CUDA_VERSION"))
    ensures && NumValid(env, "VAST_QUERY_ALLOCATED_STORAGE", U16_MAX)
            && FloatValid(env, "VAST_QUERY_RELIABILITY", parseFloat)
            && FloatValid(env, "VAST_QUERY_MIN_CUDA_VERSION", parseFloat)
            && !NumValid(env, "VAST_QUERY_GPU_RAM", U64_MAX)
            ==> ReportsFirstMalformed(env, QueryChecks(parseFloat), InvalidValue("VAST_QUERY_GPU_RAM"))
    ensures && NumValid(env, "VAST_QUERY_ALLOCATED_STORAGE", U16_MAX)
            && FloatValid(env, "VAST_QUERY_RELIABILITY", parseFloat)
            && FloatValid(env, "VAST_QUERY_MIN_CUDA_VERSION", parseFloat)
            && NumValid(env, "VAST_QUERY_GPU_RAM", U64_MAX)
            && !NumValid(env, "VAST_QUERY_DISK_SPACE", U64_MAX)
            ==> ReportsFirstMalformed(env, QueryChecks(parseFloat), InvalidValue("VAST_QUERY_DISK_SPACE"))
    ensures && NumValid(env, "VAST_QUERY_ALLOCATED_STORAGE", U16_MAX)
            && FloatValid(env, "VAST_QUERY_RELIABILITY", parseFloat)
            && FloatValid(env, "VAST_QUERY_MIN_CUDA_VERSION", parseFloat)
            && NumValid(env, "VAST_QUERY_GPU_RAM", U64_MAX)
            && NumValid(env, "VAST_QUERY_DISK_SPACE", U64_MAX)
            && !FloatValid(env, "VAST_QUERY_DURATION", parseFloat)
            ==> ReportsFirstMalformed(env, QueryChecks(parseFloat), InvalidValue("VAST_QUERY_DURATION"))
    ensures && NumValid(env, "VAST_QUERY_ALLOCATED_STORAGE", U16_MAX)
            && FloatValid(env, "VAST_QUERY_RELIABILITY", parseFloat)
            && FloatValid(env, "VAST_QUERY_MIN_CUDA_VERSION", parseFloat)
            && NumValid(env, "VAST_QUERY_GPU_RAM", U64_MAX)
            && NumValid(env, "VAST_QUERY_DISK_SPACE", U64_MAX)
            && FloatValid(env, "VAST_QUERY_DURATION", parseFloat)
            && !FloatValid(env, "VAST_QUERY_COST_PER_HOUR", parseFloat)
            ==> ReportsFirstMalformed(env, QueryChecks(parseFloat), InvalidValue("VAST_QUERY_COST_PER_HOUR"))
  {
    var checks := QueryChecks(parseFloat);
    if QueryValid(env, parseFloat) {
      forall i | 0 <= i < |checks|
        ensures WellFormed(env, checks[i])
      {
        assert i == 0 || i == 1 || i == 2 || i == 3 || i == 4 || i == 5 || i == 6;
      }
    }
    if !WellFormed(env, checks[0]) {
      assert FirstMalformed(env, checks, 0);
    } else if !WellFormed(env, checks[1]) {
      assert FirstMalformed(env, checks, 1) by {
        forall j | 0 <= j < 1
          ensures WellFormed(env, checks[j])
        {
          assert j == 0;
        }
      }
    } else if !WellFormed(env, checks[2]) {
      assert FirstMalformed(env, checks, 2) by {
        forall j | 0 <= j < 2
          ensures WellFormed(env, checks[j])
        {
          assert j == 0 || j == 1;
        }
      }
    } else if !WellFormed(env, checks[3]) {
      assert FirstMalformed(env, checks, 3) by {
        forall j | 0 <= j < 3
          ensures WellFormed(env, checks[j])
        {
          assert j == 0 || j == 1 || j == 2;
        }
      }
    } else if !WellFormed(env, checks[4]) {
      assert FirstMalformed(env, checks, 4) by {
        forall j | 0 <= j < 4
          ensures WellFormed(env, checks[j])
        {
          assert j == 0 || j == 1 || j == 2 || j == 3;
        }
      }
    } else if !WellFormed(env, checks[5]) {
      assert FirstMalformed(env, checks, 5) by {
        forall j | 0 <= j < 5
          ensures WellFormed(env, checks[j])
        {
          assert j == 0 || j == 1 || j == 2 || j == 3 || j == 4;
        }
      }
    } else if !WellFormed(env, checks[6]) {
      assert FirstMalformed(env, checks, 6) by {
        forall j | 0 <= j < 6
          ensures WellFormed(env, checks[j])
        {
          assert j == 0 || j == 1 || j == 2 || j == 3 || j == 4 || j == 5;
        }
      }
    }
  }

  /** The checks of the host and machine lists, in order: all pass exactly when the stage's
      variables are well formed, and a malformed variable whose predecessors
      are all well formed is the one reported. */
  lemma ListOrder(env: Env)
    ensures AllWellFormed(env, LIST_CHECKS) <==> ListsValid(env)
    ensures && !ListValid(env, "BAD_HOSTS")
            ==> ReportsFirstMalformed(env, LIST_CHECKS, InvalidValue("BAD_HOSTS"))
    ensures && ListValid(env, "BAD_HOSTS")
            && !ListValid(env, "BAD_MACHINES")
            ==> ReportsFirstMalformed(env, LIST_CHECKS, InvalidValue("BAD_MACHINES"))
    ensures && ListValid(env, "BAD_HOSTS")
            && ListValid(env, "BAD_MACHINES")
            && !ListValid(env, "GOOD_HOSTS")
            ==> ReportsFirstMalformed(env, LIST_CHECKS, InvalidValue("GOOD_HOSTS"))
    ensures && ListValid(env, "BAD_HOSTS")
            && ListValid(env, "BAD_MACHINES")
            && ListValid(env, "GOOD_HOSTS")
            && !ListValid(env, "GOOD_MACHINES")
            ==> ReportsFirstMalformed(env, LIST_CHECKS, InvalidValue("GOOD_MACHINES"))
  {
    var checks := LIST_CHECKS;
    if ListsValid(env) {
      forall i | 0 <= i < |checks|
        ensures WellFormed(env, checks[i])
      {
        assert i == 0 || i == 1 || i == 2 || i == 3;
      }
    }
    if !WellFormed(env, checks[0]) {
      assert FirstMalformed(env, checks, 0);
    } else if !WellFormed(env, checks[1]) {
      assert FirstMalformed(env, checks, 1) by {
        forall j | 0 <= j < 1
          ensures WellFormed(env, checks[j])
        {
          assert j == 0;
        }
      }
    } else if !WellFormed(env, checks[2]) {
      assert FirstMalformed(env, checks, 2) by {
        forall j | 0 <= j < 2
          ensures WellFormed(env, checks[j])
        {
          assert j == 0 || j == 1;
        }
      }
    } else if !WellFormed(env, checks[3]) {
      assert FirstMalformed(env, checks, 3) by {
        forall j | 0 <= j < 3
          ensures WellFormed(env, checks[j])
        {
          assert j == 0 || j == 1 || j == 2;
        }
      }
    }
  }

  /** The checks of the contemplant settings, in order: all pass exactly when the stage's
      variables are well formed, and a malformed variable whose predecessors
      are all well formed is the one reported. */
  lemma ContemplantOrder(env: Env)
    ensures AllWellFormed(env, CONTEMPLANT_CHECKS) <==> ContemplantValid(env)
    ensures && !NumValid(env, "CONTEMPLANT_HTTP_PORT", U16_MAX)
            ==> ReportsFirstMalformed(env, CONTEMPLANT_CHECKS, InvalidValue("CONTEMPLANT_HTTP_PORT"))
    ensures && NumValid(env, "CONTEMPLANT_HTTP_PORT", U16_MAX)
            && !NumValid(env, "CONTEMPLANT_HEARTBEAT_INTERVAL_SECONDS", U64_MAX)
            ==> ReportsFirstMalformed(env, CONTEMPLANT_CHECKS, InvalidValue("CONTEMPLANT_HEARTBEAT_INTERVAL_SECONDS"))
    ensures && NumValid(env, "CONTEMPLANT_HTTP_PORT", U16_MAX)
            && NumValid(env, "CONTEMPLANT_HEARTBEAT_INTERVAL_SECONDS", U64_MAX)
            && !NumValid(env, "CONTEMPLANT_MAX_PROOFS_STORED", U64_MAX)
            ==> ReportsFirstMalformed(env, CONTEMPLANT_CHECKS, InvalidValue("CONTEMPLANT_MAX_PROOFS_STORED"))
    ensures && NumValid(env, "CONTEMPLANT_HTTP_PORT", U16_MAX)
            && NumValid(env, "CONTEMPLANT_HEARTBEAT_INTERVAL_SECONDS", U64_MAX)
            && NumValid(env, "CONTEMPLANT_MAX_PROOFS_STORED", U64_MAX)
            && !NumValid(env, "CONTEMPLANT_WATCHER_POLLING_INTERVAL_MS", U64_MAX)
            ==> ReportsFirstMalformed(env, CONTEMPLANT_CHECKS, InvalidValue("CONTEMPLANT_WATCHER_POLLING_INTERVAL_MS"))
  {
    var checks := CONTEMPLANT_CHECKS;
    if ContemplantValid(env) {
      forall i | 0 <= i < |checks|
        ensures WellFormed(env, checks[i])
      {
        assert i == 0 || i == 1 || i == 2 || i == 3;
      }
    }
    if !WellFormed(env, checks[0]) {
      assert FirstMalformed(env, checks, 0);
    } else if !WellFormed(env, checks[1]) {
      assert FirstMalformed(env, checks, 1) by {
        forall j | 0 <= j < 1
          ensures WellFormed(env, checks[j])
        {
          assert j == 0;
        }
      }
    } else if !WellFormed(env, checks[2]) {
      assert FirstMalformed(env, checks, 2) by {
        forall j | 0 <= j < 2
          ensures WellFormed(env, checks[j])
        {
          assert j == 0 || j == 1;
        }
      }
    } else if !WellFormed(env, checks[3]) {
      assert FirstMalformed(env, checks, 3) by {
        forall j | 0 <= j < 3
          ensures WellFormed(env, checks[j])
        {
          assert j == 0 || j == 1 || j == 2;
        }
      }
    }
  }

  /** The first malformed variable of a prefix is the first of the whole. */
  lemma {:induction false} ReportsInPrefix(env: Env, a: seq<Check>, b: seq<Check>, e: LoadError)
    requires ReportsFirstMalformed(env, a, e)
    ensures ReportsFirstMalformed(env, a + b, e)
  {
    var i :| 0 <= i < |a| && FirstMalformed(env, a, i) && e == InvalidValue(a[i].key);
    assert forall j :: 0 <= j <= i ==> (a + b)[j] == a[j];
    assert FirstMalformed(env, a + b, i);
  }

  /** After well-formed variables only, the first malformed one of the rest is
      the first of the whole. */
  lemma {:induction false} ReportsAfterWellFormed(env: Env, a: seq<Check>, b: seq<Check>, e: LoadError)
    requires AllWellFormed(env, a) && ReportsFirstMalformed(env, b, e)
    ensures ReportsFirstMalformed(env, a + b, e)
  {
    var i :| 0 <= i < |b| && FirstMalformed(env, b, i) && e == InvalidValue(b[i].key);
    assert forall j :: 0 <= j < |a| ==> (a + b)[j] == a[j];
    assert forall j :: 0 <= j <= i ==> (a + b)[|a| + j] == b[j];
    forall j | 0 <= j < |a| + i
      ensures WellFormed(env, (a + b)[j])
    {
      if j >= |a| {
        assert (a + b)[j] == b[j - |a|];
      }
    }
    assert FirstMalformed(env, a + b, |a| + i);
  }

  lemma {:induction false} AllWellFormedAppend(env: Env, a: seq<Check>, b: seq<Check>)
    ensures AllWellFormed(env, a + b) <==> AllWellFormed(env, a) && AllWellFormed(env, b)
  {
    assert forall j :: 0 <= j < |a| ==> (a + b)[j] == a[j];
    assert forall j :: 0 <= j < |b| ==> (a + b)[|a| + j] == b[j];
    if AllWellFormed(env, a) && AllWellFormed(env, b) {
      forall j | 0 <= j < |a + b|
        ensures WellFormed(env, (a + b)[j])
      {
        if j >= |a| {
          assert (a + b)[j] == b[j - |a|];
        }
      }
    }
  }

  /** How the four stages' checks sit in the whole list: an error of a stage
      that runs after well-formed stages names the first malformed variable of
      the whole list. */
  lemma EnvChecksOrder(env: Env, parseFloat: FloatParser)
    ensures var s, q, l, c := SERVICE_CHECKS, QueryChecks(parseFloat), LIST_CHECKS, CONTEMPLANT_CHECKS;
            && (AllWellFormed(env, EnvChecks(parseFloat)) <==>
                  AllWellFormed(env, s) && AllWellFormed(env, q) && AllWellFormed(env, l) && AllWellFormed(env, c))
            && (forall e :: ReportsFirstMalformed(env, s, e) ==> ReportsFirstMalformed(env, EnvChecks(parseFloat), e))
            && (AllWellFormed(env, s) ==>
                  forall e :: ReportsFirstMalformed(env, q, e) ==> ReportsFirstMalformed(env, EnvChecks(parseFloat), e))
            && (AllWellFormed(env, s) && AllWellFormed(env, q) ==>
                  forall e :: ReportsFirstMalformed(env, l, e) ==> ReportsFirstMalformed(env, EnvChecks(parseFloat), e))
            && (AllWellFormed(env, s) && AllWellFormed(env, q) && AllWellFormed(env, l) ==>
                  forall e :: ReportsFirstMalformed(env, c, e) ==> ReportsFirstMalformed(env, EnvChecks(parseFloat), e))
  {
    var s, q, l, c := SERVICE_CHECKS, QueryChecks(parseFloat), LIST_CHECKS, CONTEMPLANT_CHECKS;
    AllWellFormedAppend(env, s, q);
    AllWellFormedAppend(env, s + q, l);
    AllWellFormedAppend(env, s + q + l, c);
    forall e | ReportsFirstMalformed(env, s, e)
      ensures ReportsFirstMalformed(env, s + q + l + c, e)
    {
      ReportsInPrefix(env, s, q, e);
      ReportsInPrefix(env, s + q, l, e);
      ReportsInPrefix(env, s + q + l, c, e);
    }
    if AllWellFormed(env, s) {
      forall e | ReportsFirstMalformed(env, q, e)
        ensures ReportsFirstMalformed(env, s + q + l + c, e)
      {
        ReportsAfterWellFormed(env, s, q, e);
        ReportsInPrefix(env, s + q, l, e);
        ReportsInPrefix(env, s + q + l, c, e);
      }
      if AllWellFormed(env, q) {
        forall e | ReportsFirstMalformed(env, l, e)
          ensures ReportsFirstMalformed(env, s + q + l + c, e)
        {
          ReportsAfterWellFormed(env, s + q, l, e);
          ReportsInPrefix(env, s + q + l, c, e);
        }
        if AllWellFormed(env, l) {
          forall e | ReportsFirstMalformed(env, c, e)
            ensures ReportsFirstMalformed(env, s + q + l + c, e)
          {
            ReportsAfterWellFormed(env, s + q + l, c, e);
          }
        }
      }
    }
  }

  // ---------------------------------------------------------------------------
  // The four override stages, in the order `load` applies them

  predicate ServiceValid(env: Env) {
    && NumValid(env, "HTTP_PORT", U16_MAX)
    && NumValid(env, "HIEROPHANT_HTTP_PORT", U16_MAX)
    && NumValid(env, "VAST_API_CALL_BACKOFF_SECS", U64_MAX)
    && NumValid(env, "TASK_POLLING_INTERVAL_SECS", U64_MAX)
    && NumValid(env, "CONTEMPLANT_VERIFICATION_TIMEOUT_SECS", U64_MAX)
    && NumValid(env, "NUMBER_INSTANCES", U64_MAX)
  }

  predicate ServiceSet(env: Env, before: Config, after: Config) {
    && NumSet(env, "HTTP_PORT", U16_MAX, before.httpPort, after.httpPort)
    && TextSet(env, "THIS_MAGISTER_ADDR", before.thisMagisterAddr, after.thisMagisterAddr)
    && TextSet(env, "HIEROPHANT_IP", before.hierophantIp, after.hierophantIp)
    && NumSet(env, "HIEROPHANT_HTTP_PORT", U16_MAX, before.hierophantHttpPort, after.hierophantHttpPort)
    && TextSet(env, "VAST_API_KEY", before.vastApiKey, after.vastApiKey)
    && NumSet(env, "VAST_API_CALL_BACKOFF_SECS", U64_MAX, before.vastApiCallBackoffSecs, after.vastApiCallBackoffSecs)
    && NumSet(env, "TASK_POLLING_INTERVAL_SECS", U64_MAX, before.taskPollingIntervalSecs, after.taskPollingIntervalSecs)
    && NumSet(env, "CONTEMPLANT_VERIFICATION_TIMEOUT_SECS", U64_MAX,
              before.contemplantVerificationTimeoutSecs, after.contemplantVerificationTimeoutSecs)
    && TextSet(env, "TEMPLATE_HASH", before.templateHash, after.templateHash)
    && NumSet(env, "NUMBER_INSTANCES", U64_MAX, before.numberInstances, after.numberInstances)
  }

  /** The overrides of the magister's own settings (ports, addresses, API key,
      intervals, template and instance count). */
  function ApplyServiceOverrides(c: Config, env: Env): (r: Result<Config, LoadError>)
    ensures r.Ok? <==> ServiceValid(env)
    ensures r.Ok? ==> ServiceSet(env, c, r.value)
    ensures r.Ok? ==> r.value.vastQuery == c.vastQuery && r.value.contemplant == c.contemplant
    ensures r.Ok? ==> r.value.badHosts == c.badHosts && r.value.badMachines == c.badMachines
    ensures r.Ok? ==> r.value.goodHosts == c.goodHosts && r.value.goodMachines == c.goodMachines
    ensures r.Ok? <==> AllWellFormed(env, SERVICE_CHECKS)
    ensures r.Err? ==> r.error.InvalidValue? && r.error.key in env
    ensures r.Err? ==> ReportsFirstMalformed(env, SERVICE_CHECKS, r.error)
  {
    ServiceOrder(env);
    var httpPort :- OverrideNum(env, "HTTP_PORT", U16_MAX, c.httpPort);
    var hierophantHttpPort :- OverrideNum(env, "HIEROPHANT_HTTP_PORT", U16_MAX, c.hierophantHttpPort);
    var backoff :- OverrideNum(env, "VAST_API_CALL_BACKOFF_SECS", U64_MAX, c.vastApiCallBackoffSecs);
    var polling :- OverrideNum(env, "TASK_POLLING_INTERVAL_SECS", U64_MAX, c.taskPollingIntervalSecs);
    var timeout :- OverrideNum(env, "CONTEMPLANT_VERIFICATION_TIMEOUT_SECS", U64_MAX, c.contemplantVerificationTimeoutSecs);
    var instances :- OverrideNum(env, "NUMBER_INSTANCES", U64_MAX, c.numberInstances);
    Ok(c.(
      httpPort := httpPort,
      thisMagisterAddr := OverrideText(env, "THIS_MAGISTER_ADDR", c.thisMagisterAddr),
      hierophantIp := OverrideText(env, "HIEROPHANT_IP", c.hierophantIp),
      hierophantHttpPort := hierophantHttpPort,
      vastApiKey := OverrideText(env, "VAST_API_KEY", c.vastApiKey),
      vastApiCallBackoffSecs := backoff,
      taskPollingIntervalSecs := polling,
      contemplantVerificationTimeoutSecs := timeout,
      templateHash := OverrideText(env, "TEMPLATE_HASH", c.templateHash),
      numberInstances := instances))
  }

  predicate QueryValid(env: Env, parseFloat: FloatParser) {
    && NumValid(env, "VAST_QUERY_ALLOCATED_STORAGE", U16_MAX)
    && FloatValid(env, "VAST_QUERY_RELIABILITY", parseFloat)
    && FloatValid(env, "VAST_QUERY_MIN_CUDA_VERSION", parseFloat)
    && NumValid(env, "VAST_QUERY_GPU_RAM", U64_MAX)
    && NumValid(env, "VAST_QUERY_DISK_SPACE", U64_MAX)
    && FloatValid(env, "VAST_QUERY_DURATION", parseFloat)
    && FloatValid(env, "VAST_QUERY_COST_PER_HOUR", parseFloat)
  }

  predicate QuerySet(env: Env, parseFloat: FloatParser, before: VastQueryConfig, after: VastQueryConfig) {
    && NumSet(env, "VAST_QUERY_ALLOCATED_STORAGE", U16_MAX, before.allocatedStorage, after.allocatedStorage)
    && TextSet(env, "VAST_QUERY_GPU_NAME", before.gpuName, after.gpuName)
    && FloatSet(env, "VAST_QUERY_RELIABILITY", parseFloat, before.reliability, after.reliability)
    && FloatSet(env, "VAST_QUERY_MIN_CUDA_VERSION", parseFloat, before.minCudaVersion, after.minCudaVersion)
    && NumSet(env, "VAST_QUERY_GPU_RAM", U64_MAX, before.gpuRam, after.gpuRam)
    && NumSet(env, "VAST_QUERY_DISK_SPACE", U64_MAX, before.diskSpace, after.diskSpace)
    && FloatSet(env, "VAST_QUERY_DURATION", parseFloat, before.duration, after.duration)
    && FloatSet(env, "VAST_QUERY_COST_PER_HOUR", parseFloat, before.costPerHour, after.costPerHour)
  }

  /** The overrides of the offers search parameters. */
  function ApplyQueryOverrides(c: Config, env: Env, parseFloat: FloatParser): (r: Result<Config, LoadError>)
    ensures r.Ok? <==> QueryValid(env, parseFloat)
    ensures r.Ok? ==> QuerySet(env, parseFloat, c.vastQuery, r.value.vastQuery)
    ensures r.Ok? ==> r.value == c.(vastQuery := r.value.vastQuery)
    ensures r.Ok? <==> AllWellFormed(env, QueryChecks(parseFloat))
    ensures r.Err? ==> r.error.InvalidValue? && r.error.key in env
    ensures r.Err? ==> ReportsFirstMalformed(env, QueryChecks(parseFloat), r.error)
  {
    QueryOrder(env, parseFloat);
    var q := c.vastQuery;
    var storage :- OverrideNum(env, "VAST_QUERY_ALLOCATED_STORAGE", U16_MAX, q.allocatedStorage);
    var reliability :- OverrideFloat(env, "VAST_QUERY_RELIABILITY", parseFloat, q.reliability);
    var cuda :- OverrideFloat(env, "VAST_QUERY_MIN_CUDA_VERSION", parseFloat, q.minCudaVersion);
    var gpuRam :- OverrideNum(env, "VAST_QUERY_GPU_RAM", U64_MAX, q.gpuRam);
    var disk :- OverrideNum(env, "VAST_QUERY_DISK_SPACE", U64_MAX, q.diskSpace);
    var duration :- OverrideFloat(env, "VAST_QUERY_DURATION", parseFloat, q.duration);
    var cost :- OverrideFloat(env, "VAST_QUERY_COST_PER_HOUR", parseFloat, q.costPerHour);
    Ok(c.(vastQuery := VastQueryConfig(
      storage, OverrideText(env, "VAST_QUERY_GPU_NAME", q.gpuName),
      reliability, cuda, gpuRam, disk, duration, cost)))
  }

  predicate ListsValid(env: Env) {
    ListValid(env, "BAD_HOSTS") && ListValid(env, "BAD_MACHINES")
    && ListValid(env, "GOOD_HOSTS") && ListValid(env, "GOOD_MACHINES")
  }

  predicate ListsSet(env: Env, before: Config, after: Config) {
    && ListSet(env, "BAD_HOSTS", before.badHosts, after.badHosts)
    && ListSet(env, "BAD_MACHINES", before.badMachines, after.badMachines)
    && ListSet(env, "GOOD_HOSTS", before.goodHosts, after.goodHosts)
    && ListSet(env, "GOOD_MACHINES", before.goodMachines, after.goodMachines)
  }

  /** The overrides of the host and machine lists. */
  function ApplyListOverrides(c: Config, env: Env): (r: Result<Config, LoadError>)
    ensures r.Ok? <==> ListsValid(env)
    ensures r.Ok? ==> ListsSet(env, c, r.value)
    ensures r.Ok? ==> r.value == c.(badHosts := r.value.badHosts, badMachines := r.value.badMachines,
                                    goodHosts := r.value.goodHosts, goodMachines := r.value.goodMachines)
    ensures r.Ok? <==> AllWellFormed(env, LIST_CHECKS)
    ensures r.Err? ==> r.error.InvalidValue? && r.error.key in env
    ensures r.Err? ==> ReportsFirstMalformed(env, LIST_CHECKS, r.error)
  {
    ListOrder(env);
    var badHosts :- OverrideList(env, "BAD_HOSTS", c.badHosts);
    var badMachines :- OverrideList(env, "BAD_MACHINES", c.badMachines);
    var goodHosts :- OverrideList(env, "GOOD_HOSTS", c.goodHosts);
    var goodMachines :- OverrideList(env, "GOOD_MACHINES", c.goodMachines);
    Ok(c.(badHosts := badHosts, badMachines := badMachines, goodHosts := goodHosts, goodMachines := goodMachines))
  }

  predicate ContemplantValid(env: Env) {
    && NumValid(env, "CONTEMPLANT_HTTP_PORT", U16_MAX)
    && NumValid(env, "CONTEMPLANT_HEARTBEAT_INTERVAL_SECONDS", U64_MAX)
    && NumValid(env, "CONTEMPLANT_MAX_PROOFS_STORED", U64_MAX)
    && NumValid(env, "CONTEMPLANT_WATCHER_POLLING_INTERVAL_MS", U64_MAX)
  }

  predicate ContemplantSet(env: Env, before: ContemplantConfig, after: ContemplantConfig) {
    && TextSet(env, "CONTEMPLANT_PROVER_TYPE", before.proverType, after.proverType)
    && SomeSet(env, "CONTEMPLANT_NAME", before.contemplantName, after.contemplantName)
    && NumSet(env, "CONTEMPLANT_HTTP_PORT", U16_MAX, before.httpPort, after.httpPort)
    && SomeSet(env, "CONTEMPLANT_MOONGATE_ENDPOINT", before.moongateEndpoint, after.moongateEndpoint)
    && NumSet(env, "CONTEMPLANT_HEARTBEAT_INTERVAL_SECONDS", U64_MAX,
              before.heartbeatIntervalSeconds, after.heartbeatIntervalSeconds)
    && NumSet(env, "CONTEMPLANT_MAX_PROOFS_STORED", U64_MAX, before.maxProofsStored, after.maxProofsStored)
    && TextSet(env, "CONTEMPLANT_MOONGATE_LOG_PATH", before.moongateLogPath, after.moongateLogPath)
    && NumSet(env, "CONTEMPLANT_WATCHER_POLLING_INTERVAL_MS", U64_MAX,
              before.watcherPollingIntervalMs, after.watcherPollingIntervalMs)
    && SomeSet(env, "CONTEMPLANT_SSH_AUTHORIZED_KEYS", before.sshAuthorizedKeys, after.sshAuthorizedKeys)
  }

  /** The overrides of the settings handed to contemplants. */
  function ApplyContemplantOverrides(c: Config, env: Env): (r: Result<Config, LoadError>)
    ensures r.Ok? <==> ContemplantValid(env)
    ensures r.Ok? ==> ContemplantSet(env, c.contemplant, r.value.contemplant)
    ensures r.Ok? ==> r.value == c.(contemplant := r.value.contemplant)
    ensures r.Ok? <==> AllWellFormed(env, CONTEMPLANT_CHECKS)
    ensures r.Err? ==> r.error.InvalidValue? && r.error.key in env
    ensures r.Err? ==> ReportsFirstMalformed(env, CONTEMPLANT_CHECKS, r.error)
  {
    ContemplantOrder(env);
    var k := c.contemplant;
    var port :- OverrideNum(env, "CONTEMPLANT_HTTP_PORT", U16_MAX, k.httpPort);
    var heartbeat :- OverrideNum(env, "CONTEMPLANT_HEARTBEAT_INTERVAL_SECONDS", U64_MAX, k.heartbeatIntervalSeconds);
    var proofs :- OverrideNum(env, "CONTEMPLANT_MAX_PROOFS_STORED", U64_MAX, k.maxProofsStored);
    var watcher :- OverrideNum(env, "CONTEMPLANT_WATCHER_POLLING_INTERVAL_MS", U64_MAX, k.watcherPollingIntervalMs);
    Ok(c.(contemplant := ContemplantConfig(
      OverrideText(env, "CONTEMPLANT_PROVER_TYPE", k.proverType),
      OverrideSome(env, "CONTEMPLANT_NAME", k.contemplantName),
      port,
      OverrideSome(env, "CONTEMPLANT_MOONGATE_ENDPOINT", k.moongateEndpoint),
      heartbeat, proofs,
      OverrideText(env, "CONTEMPLANT_MOONGATE_LOG_PATH", k.moongateLogPath),
      watcher,
      OverrideSome(env, "CONTEMPLANT_SSH_AUTHORIZED_KEYS", k.sshAuthorizedKeys))))
  }

  // ---------------------------------------------------------------------------
  // Validation and the whole load

  /** The six fields without which the magister cannot run. */
  predicate Complete(c: Config) {
    && c.thisMagisterAddr != ""
    && c.hierophantIp != ""
    && c.hierophantHttpPort != 0
    && c.vastApiKey != ""
    && c.templateHash != ""
    && c.numberInstances != 0
  }

  /** The required fields' names, in the order they are checked. */
  const REQUIRED_FIELDS: seq<string> :=
    ["this_magister_addr", "hierophant_ip", "hierophant_http_port", "vast_api_key", "template_hash", "number_instances"]

  /** Which required fields are missing (empty text or zero), in the order of
      `REQUIRED_FIELDS`. */
  function MissingFields(c: Config): (m: seq<bool>)
    ensures |m| == |REQUIRED_FIELDS|
    ensures Complete(c) <==> forall i :: 0 <= i < |m| ==> !m[i]
  {
    var m := [c.thisMagisterAddr == "", c.hierophantIp == "", c.hierophantHttpPort == 0,
              c.vastApiKey == "", c.templateHash == "", c.numberInstances == 0];
    assert m[0] == (c.thisMagisterAddr == "") && m[1] == (c.hierophantIp == "");
    assert m[2] == (c.hierophantHttpPort == 0) && m[3] == (c.vastApiKey == "");
    assert m[4] == (c.templateHash == "") && m[5] == (c.numberInstances == 0);
    m
  }

  /** Checks the required fields in order and reports the first one missing. */
  function Validate(c: Config): (r: Result<Config, LoadError>)
    ensures r.Ok? <==> Complete(c)
    ensures r.Ok? ==> r.value == c
    ensures r.Err? ==> exists i :: 0 <= i < |REQUIRED_FIELDS|
                        && r.error == MissingRequired(REQUIRED_FIELDS[i])
                        && MissingFields(c)[i]
                        && forall j :: 0 <= j < i ==> !MissingFields(c)[j]
  {
    var m := MissingFields(c);
    if m[0] then Err(MissingRequired(REQUIRED_FIELDS[0]))
    else if m[1] then Err(MissingRequired(REQUIRED_FIELDS[1]))
    else if m[2] then Err(MissingRequired(REQUIRED_FIELDS[2]))
    else if m[3] then Err(MissingRequired(REQUIRED_FIELDS[3]))
    else if m[4] then Err(MissingRequired(REQUIRED_FIELDS[4]))
    else if m[5] then Err(MissingRequired(REQUIRED_FIELDS[5]))
    else Ok(c)
  }

  /** Every set numeric, float and list variable is well formed. */
  predicate EnvValid(env: Env, parseFloat: FloatParser) {
    ServiceValid(env) && QueryValid(env, parseFloat) && ListsValid(env) && ContemplantValid(env)
  }

  /** `after` is `before` with every set variable applied to its field. */
  predicate EnvApplied(before: Config, env: Env, parseFloat: FloatParser, after: Config) {
    && ServiceSet(env, before, after)
    && QuerySet(env, parseFloat, before.vastQuery, after.vastQuery)
    && ListsSet(env, before, after)
    && ContemplantSet(env, before.contemplant, after.contemplant)
  }

  /** The configuration the environment is applied to. */
  function Base(file: ConfigFile): (r: Result<Config, LoadError>)
    ensures file.NoFile? ==> r == Ok(FallbackConfig())
    ensures file.Parsed? ==> r == Ok(file.config)
    ensures file.Unreadable? ==> r == Err(ReadFailed)
    ensures file.Unparseable? ==> r == Err(ParseFailed)
  {
    match file
    case NoFile => Ok(FallbackConfig())
    case Unreadable => Err(ReadFailed)
    case Unparseable => Err(ParseFailed)
    case Parsed(c) => Ok(c)
  }

  /** All four override stages, in order. It succeeds exactly when every set
      variable is well formed, and then applies every one of them. */
  function ApplyEnv(base: Config, env: Env, parseFloat: FloatParser): (r: Result<Config, LoadError>)
    ensures r.Ok? <==> EnvValid(env, parseFloat)
    ensures r.Ok? ==> EnvApplied(base, env, parseFloat, r.value)
    ensures r.Ok? <==> AllWellFormed(env, EnvChecks(parseFloat))
    ensures r.Err? ==> r.error.InvalidValue? && r.error.key in env
    ensures r.Err? ==> ReportsFirstMalformed(env, EnvChecks(parseFloat), r.error)
  {
    EnvChecksOrder(env, parseFloat);
    var c1 :- ApplyServiceOverrides(base, env);
    var c2 :- ApplyQueryOverrides(c1, env, parseFloat);
    var c3 :- ApplyListOverrides(c2, env);
    var c4 :- ApplyContemplantOverrides(c3, env);
    StagesCompose(base, env, parseFloat, c1, c2, c3, c4);
    Ok(c4)
  }

  lemma StagesCompose(base: Config, env: Env, parseFloat: FloatParser, c1: Config, c2: Config, c3: Config, c4: Config)
    requires ServiceSet(env, base, c1)
    requires c1.vastQuery == base.vastQuery && c1.contemplant == base.contemplant
    requires c1.badHosts == base.badHosts && c1.badMachines == base.badMachines
    requires c1.goodHosts == base.goodHosts && c1.goodMachines == base.goodMachines
    requires QuerySet(env, parseFloat, c1.vastQuery, c2.vastQuery) && c2 == c1.(vastQuery := c2.vastQuery)
    requires ListsSet(env, c2, c3)
    requires c3 == c2.(badHosts := c3.badHosts, badMachines := c3.badMachines,
                       goodHosts := c3.goodHosts, goodMachines := c3.goodMachines)
    requires ContemplantSet(env, c3.contemplant, c4.contemplant) && c4 == c3.(contemplant := c4.contemplant)
    ensures EnvApplied(base, env, parseFloat, c4)
  {
    assert c4.httpPort == c1.httpPort && c4.thisMagisterAddr == c1.thisMagisterAddr;
    assert c4.hierophantIp == c1.hierophantIp && c4.hierophantHttpPort == c1.hierophantHttpPort;
    assert c4.vastApiKey == c1.vastApiKey && c4.templateHash == c1.templateHash;
    assert c4.vastApiCallBackoffSecs == c1.vastApiCallBackoffSecs;
    assert c4.taskPollingIntervalSecs == c1.taskPollingIntervalSecs;
    assert c4.contemplantVerificationTimeoutSecs == c1.contemplantVerificationTimeoutSecs;
    assert c4.numberInstances == c1.numberInstances;
    assert ServiceSet(env, base, c4);
    assert c4.vastQuery == c2.vastQuery;
    assert c4.badHosts == c3.badHosts && c4.badMachines == c3.badMachines;
    assert c4.goodHosts == c3.goodHosts && c4.goodMachines == c3.goodMachines;
    assert c3.contemplant == base.contemplant;
  }

  /** `Config::load`. It succeeds only when the file (if any) was read, every
      set variable is well formed and the result has all six required fields,
      and its result is then the base configuration with every set variable
      applied. A malformed variable is an error, never ignored. */
  function Load(file: ConfigFile, env: Env, parseFloat: FloatParser): (r: Result<Config, LoadError>)
    ensures file.Unreadable? ==> r == Err(ReadFailed)
    ensures file.Unparseable? ==> r == Err(ParseFailed)
    ensures r.Ok? ==> Base(file).Ok? && EnvValid(env, parseFloat)
    ensures r.Ok? ==> EnvApplied(Base(file).value, env, parseFloat, r.value) && Complete(r.value)
    ensures Base(file).Ok? && !EnvValid(env, parseFloat) ==> r.Err? && r.error.InvalidValue? && r.error.key in env
    ensures Base(file).Ok? && !EnvValid(env, parseFloat) ==> ReportsFirstMalformed(env, EnvChecks(parseFloat), r.error)
    ensures Base(file).Ok? && EnvValid(env, parseFloat) && r.Err? ==> r.error.MissingRequired?
  {
    var base :- Base(file);
    var c :- ApplyEnv(base, env, parseFloat);
    Validate(c)
  }

  /** Conversely, whenever the file was read and every set variable is well
      formed, `load` returns the validation of the base configuration with the
      environment applied: `Ok` of it if it is complete. */
  lemma LoadSucceeds(file: ConfigFile, env: Env, parseFloat: FloatParser, c: Config)
    requires Base(file).Ok? && EnvValid(env, parseFloat)
    requires EnvApplied(Base(file).value, env, parseFloat, c)
    ensures Load(file, env, parseFloat) == Validate(c)
    ensures Complete(c) ==> Load(file, env, parseFloat) == Ok(c)
  {
    var d := ApplyEnv(Base(file).value, env, parseFloat).value;
    EnvAppliedDeterministic(Base(file).value, env, parseFloat, d);
  }

  /** The environment determines the loaded configuration completely: at most
      one configuration is the base with the environment applied. */
  lemma EnvAppliedDeterministic(base: Config, env: Env, parseFloat: FloatParser, c: Config)
    requires EnvApplied(base, env, parseFloat, c)
    ensures forall d :: EnvApplied(base, env, parseFloat, d) ==> d == c
  {
    forall d | EnvApplied(base, env, parseFloat, d)
      ensures d == c
    {
      assert d.vastQuery == c.vastQuery;
      assert d.contemplant == c.contemplant;
    }
  }

  /** Without a file every required field starts empty or zero, so a successful
      load needs the environment to supply all six. */
  lemma NoFileNeedsEnv(env: Env, parseFloat: FloatParser)
    requires Load(NoFile, env, parseFloat).Ok?
    ensures "THIS_MAGISTER_ADDR" in env && env["THIS_MAGISTER_ADDR"] != ""
    ensures "HIEROPHANT_IP" in env && env["HIEROPHANT_IP"] != ""
    ensures "HIEROPHANT_HTTP_PORT" in env && ParseUInt(env["HIEROPHANT_HTTP_PORT"], U16_MAX).value != 0
    ensures "VAST_API_KEY" in env && env["VAST_API_KEY"] != ""
    ensures "TEMPLATE_HASH" in env && env["TEMPLATE_HASH"] != ""
    ensures "NUMBER_INSTANCES" in env && ParseUInt(env["NUMBER_INSTANCES"], U64_MAX).value != 0
  {
    var c := Load(NoFile, env, parseFloat).value;
    assert ServiceSet(env, FallbackConfig(), c);
  }
}
