/** The magister's configuration records, their default values, and the
    rendering of a contemplant configuration as the shell `export` line that is
    handed to every contemplant started on Vast.ai. */
module Configuration {
  import opened Wrappers
  import opened Numeric
  import opened Text

  /** The offers search parameters. */
  datatype VastQueryConfig = VastQueryConfig(
    allocatedStorage: U16,
    gpuName: string,
    reliability: F64,
    minCudaVersion: F64,
    gpuRam: U64,
    diskSpace: U64,
    duration: F64,
    costPerHour: F64)

  /** The settings passed on to each contemplant. */
  datatype ContemplantConfig = ContemplantConfig(
    proverType: string,
    contemplantName: Option<string>,
    httpPort: U16,
    moongateEndpoint: Option<string>,
    heartbeatIntervalSeconds: U64,
    maxProofsStored: U64,
    moongateLogPath: string,
    watcherPollingIntervalMs: U64,
    sshAuthorizedKeys: Option<string>)

  /** The magister's own configuration. */
  datatype Config = Config(
    httpPort: U16,
    thisMagisterAddr: string,
    hierophantIp: string,
    hierophantHttpPort: U16,
    vastQuery: VastQueryConfig,
    vastApiKey: string,
    vastApiCallBackoffSecs: U64,
    taskPollingIntervalSecs: U64,
    contemplantVerificationTimeoutSecs: U64,
    templateHash: string,
    numberInstances: U64,
    badHosts: Option<seq<U64>>,
    badMachines: Option<seq<U64>>,
    goodHosts: Option<seq<U64>>,
    goodMachines: Option<seq<U64>>,
    contemplant: ContemplantConfig)

  const DEFAULT_HTTP_PORT: U16 := 8555
  const DEFAULT_VAST_API_CALL_BACKOFF_SECS: U64 := 10
  const DEFAULT_TASK_POLLING_INTERVAL_SECS: U64 := 30
  const DEFAULT_CONTEMPLANT_VERIFICATION_TIMEOUT_SECS: U64 := 180

  /** `ContemplantConfig::default`: a CPU prover on port 9011 with a 30 second
      heartbeat, two stored proofs, log `./moongate.log` polled every 2000 ms,
      and no name, moongate endpoint or SSH keys. */
  function DefaultContemplant(): (c: ContemplantConfig)
    ensures c.proverType == "cpu" && c.httpPort == 9011
    ensures c.heartbeatIntervalSeconds == 30 && c.maxProofsStored == 2
    ensures c.moongateLogPath == "./moongate.log" && c.watcherPollingIntervalMs == 2000
    ensures c.contemplantName.None? && c.moongateEndpoint.None? && c.sshAuthorizedKeys.None?
  {
    ContemplantConfig("cpu", None, 9011, None, 30, 2, "./moongate.log", 2000, None)
  }

  /** The configuration `Config::load` starts from when there is no file: every
      required field empty or zero, the optional fields at their defaults. */
  function FallbackConfig(): (c: Config)
    ensures c.thisMagisterAddr == "" && c.hierophantIp == "" && c.vastApiKey == "" && c.templateHash == ""
    ensures c.hierophantHttpPort == 0 && c.numberInstances == 0
    ensures c.httpPort == DEFAULT_HTTP_PORT
    ensures c.vastApiCallBackoffSecs == DEFAULT_VAST_API_CALL_BACKOFF_SECS
    ensures c.taskPollingIntervalSecs == DEFAULT_TASK_POLLING_INTERVAL_SECS
    ensures c.contemplantVerificationTimeoutSecs == DEFAULT_CONTEMPLANT_VERIFICATION_TIMEOUT_SECS
    ensures c.badHosts.None? && c.badMachines.None? && c.goodHosts.None? && c.goodMachines.None?
    ensures c.contemplant == DefaultContemplant()
  {
    var zero := F64(0);
    Config(
      DEFAULT_HTTP_PORT, "", "", 0,
      VastQueryConfig(0, "", zero, zero, 0, 0, zero, zero),
      "",
      DEFAULT_VAST_API_CALL_BACKOFF_SECS,
      DEFAULT_TASK_POLLING_INTERVAL_SECS,
      DEFAULT_CONTEMPLANT_VERIFICATION_TIMEOUT_SECS,
      "", 0, None, None, None, None,
      DefaultContemplant())
  }

  // ---------------------------------------------------------------------------
  // SSH key escaping

  /** How one character of the SSH keys is written inside the quoted export. */
  function EscapeChar(c: char): string {
    if c == '\\' then "\\\\"
    else if c == '"' then "\\\""
    else if c == '\n' then "\\n"
    else [c]
  }

  /** Character-by-character escaping: the reference for `EscapeKeys`. */
  function EscapeEach(s: string): string
    decreases |s|
  {
    if |s| == 0 then "" else EscapeChar(s[0]) + EscapeEach(s[1..])
  }

  /** The escaping `to_env_exports` applies to the SSH keys: three successive
      replacements, backslashes first, then double quotes, then newlines. The
      result never contains a raw newline. */
  function EscapeKeys(keys: string): (r: string)
    ensures '\n' !in r
  {
    Replace(Replace(Replace(keys, '\\', "\\\\"), '"', "\\\""), '\n', "\\n")
  }

  /** Because backslashes are replaced first, the backslashes the later steps
      insert are never doubled: the three passes act as one per-character
      escape. */
  lemma {:induction false} EscapeKeysIsEscapeEach(s: string)
    ensures EscapeKeys(s) == EscapeEach(s)
    decreases |s|
  {
    if |s| > 0 {
      var c, t := s[0], s[1..];
      assert s == [c] + t;
      var a1 := if c == '\\' then "\\\\" else [c];
      ReplaceAppend([c], t, '\\', "\\\\");
      assert Replace(s, '\\', "\\\\") == a1 + Replace(t, '\\', "\\\\");
      var a2 := Replace(a1, '"', "\\\"");
      ReplaceAppend(a1, Replace(t, '\\', "\\\\"), '"', "\\\"");
      var a3 := Replace(a2, '\n', "\\n");
      ReplaceAppend(a2, Replace(Replace(t, '\\', "\\\\"), '"', "\\\""), '\n', "\\n");
      assert EscapeKeys(s) == a3 + EscapeKeys(t);
      if c == '\\' {
        assert a1 == ['\\', '\\'];
        assert a2 == ['\\', '\\'];
        assert a3 == ['\\', '\\'];
      } else if c == '"' {
        assert a2 == ['\\', '"'];
        assert a3 == ['\\', '"'];
      } else if c == '\n' {
        assert a2 == ['\n'];
        assert a3 == ['\\', 'n'];
      } else {
        assert a2 == [c];
        assert a3 == [c];
      }
      EscapeKeysIsEscapeEach(t);
    }
  }

  /** Reading an escaped string back: `\\`, `\"` and `\n` stand for a
      backslash, a double quote and a newline; every other character stands
      for itself. */
  function Unescape(t: string): string
    decreases |t|
  {
    if |t| >= 2 && t[0] == '\\' && t[1] in {'\\', '"', 'n'} then
      [if t[1] == 'n' then '\n' else t[1]] + Unescape(t[2..])
    else if |t| > 0 then [t[0]] + Unescape(t[1..])
    else ""
  }

  lemma {:induction false} UnescapeEscapeEach(s: string)
    ensures Unescape(EscapeEach(s)) == s
    decreases |s|
  {
    if |s| > 0 {
      var e := EscapeEach(s);
      var rest := EscapeEach(s[1..]);
      UnescapeEscapeEach(s[1..]);
      if s[0] in {'\\', '"', '\n'} {
        assert e[2..] == rest;
      } else {
        assert e[1..] == rest;
      }
    }
  }

  /** Text that reads back unambiguously between the escaped quotes of an
      export: every backslash starts one of the escapes `\\`, `\"` and `\n`,
      and there is no bare double quote and no raw newline. */
  predicate WellEscaped(t: string)
    decreases |t|
  {
    if |t| == 0 then true
    else if t[0] == '\\' then |t| >= 2 && t[1] in {'\\', '"', 'n'} && WellEscaped(t[2..])
    else t[0] != '"' && t[0] != '\n' && WellEscaped(t[1..])
  }

  /** Every escaped text is well escaped. */
  lemma {:induction false} EscapeEachWellEscaped(s: string)
    ensures WellEscaped(EscapeEach(s))
    decreases |s|
  {
    if |s| > 0 {
      var e := EscapeEach(s);
      EscapeEachWellEscaped(s[1..]);
      if s[0] in {'\\', '"', '\n'} {
        assert e[2..] == EscapeEach(s[1..]);
      } else {
        assert e[1..] == EscapeEach(s[1..]);
      }
    }
  }

  /** Conversely, every well-escaped text is the escaping of what it reads
      back as: the escaped texts are exactly the well-escaped ones. */
  lemma {:induction false} EscapeEachUnescape(t: string)
    requires WellEscaped(t)
    ensures EscapeEach(Unescape(t)) == t
    decreases |t|
  {
    if |t| > 0 {
      var u := Unescape(t);
      if t[0] == '\\' {
        EscapeEachUnescape(t[2..]);
        assert u[1..] == Unescape(t[2..]);
        assert t == t[..2] + t[2..];
      } else {
        EscapeEachUnescape(t[1..]);
        assert u[1..] == Unescape(t[1..]);
        assert t == [t[0]] + t[1..];
      }
    }
  }

  /** In well-escaped text every double quote comes right after a backslash,
      and there is no raw newline. */
  lemma {:induction false} WellEscapedQuotes(t: string)
    requires WellEscaped(t)
    ensures forall i :: 0 <= i < |t| && t[i] == '"' ==> 0 < i && t[i - 1] == '\\'
    ensures '\n' !in t
    decreases |t|
  {
    if |t| > 0 {
      var k := if t[0] == '\\' then 2 else 1;
      var rest := t[k..];
      WellEscapedQuotes(rest);
      forall i | 0 <= i < |t| && t[i] == '"'
        ensures 0 < i && t[i - 1] == '\\'
      {
        if i >= k {
          assert rest[i - k] == '"';
          if i - k > 0 {
            assert t[i - 1] == rest[i - k - 1];
          }
        }
      }
      assert forall i :: k <= i < |t| ==> t[i] == rest[i - k];
    }
  }

  /** Escaping loses nothing: unescaping recovers the original keys exactly. */
  lemma UnescapeEscapeKeys(keys: string)
    ensures Unescape(EscapeKeys(keys)) == keys
  {
    EscapeKeysIsEscapeEach(keys);
    UnescapeEscapeEach(keys);
  }

  /** The order matters for `Unescape`: replacing double quotes before
      backslashes would double the backslash inserted for a quote, and
      `Unescape` would no longer read the quote back as itself. */
  lemma QuoteFirstIsNotReversible()
    ensures Unescape(Replace(Replace("\"", '"', "\\\""), '\\', "\\\\")) != "\""
  {
    assert Replace("\"", '"', "\\\"") == "\\\"";
    assert Replace("\\\"", '\\', "\\\\") == "\\\\\"";
    assert Unescape("\\\\\"") == "\\\"";
  }

  // ---------------------------------------------------------------------------
  // Environment exports

  /** The variables a contemplant's environment is given, in the order
      `to_env_exports` writes them. */
  datatype Var =
    | ProverType | ContemplantName | HttpPort | MoongateEndpoint
    | HeartbeatIntervalSeconds | MaxProofsStored | MoongateLogPath
    | WatcherPollingIntervalMs | SshAuthorizedKeys

  /** The shell name of a variable. */
  function VarName(v: Var): string {
    match v
    case ProverType => "PROVER_TYPE"
    case ContemplantName => "CONTEMPLANT_NAME"
    case HttpPort => "HTTP_PORT"
    case MoongateEndpoint => "MOONGATE_ENDPOINT"
    case HeartbeatIntervalSeconds => "HEARTBEAT_INTERVAL_SECONDS"
    case MaxProofsStored => "MAX_PROOFS_STORED"
    case MoongateLogPath => "MOONGATE_LOG_PATH"
    case WatcherPollingIntervalMs => "WATCHER_POLLING_INTERVAL_MS"
    case SshAuthorizedKeys => "SSH_AUTHORIZED_KEYS"
  }

  /** One `export NAME=\"value\"` item. */
  datatype Export = Export(name: Var, value: string)

  /** The text of one export: `export NAME=\"value\"`, the quotes written with
      a backslash in front so that they survive the outer quoting of the
      onstart command. */
  function Render(e: Export): string {
    "export " + VarName(e.name) + "=\\\"" + e.value + "\\\""
  }

  function Optional(name: Var, o: Option<string>): (r: seq<Export>)
    ensures |r| == if o.Some? then 1 else 0
    ensures forall i :: 0 <= i < |r| ==> r[i] == Export(name, o.value)
  {
    if o.Some? then [Export(name, o.value)] else []
  }

  function OptionalCount(c: ContemplantConfig): nat {
    (if c.contemplantName.Some? then 1 else 0)
    + (if c.moongateEndpoint.Some? then 1 else 0)
    + (if c.sshAuthorizedKeys.Some? then 1 else 0)
  }

  /** The six exports every contemplant receives, in the order they are written. */
  function MandatoryExports(c: ContemplantConfig): seq<Export> {
    [ Export(ProverType, c.proverType),
      Export(HttpPort, ToDecimal(c.httpPort)),
      Export(HeartbeatIntervalSeconds, ToDecimal(c.heartbeatIntervalSeconds)),
      Export(MaxProofsStored, ToDecimal(c.maxProofsStored)),
      Export(MoongateLogPath, c.moongateLogPath),
      Export(WatcherPollingIntervalMs, ToDecimal(c.watcherPollingIntervalMs)) ]
  }

  predicate HasExport(e: seq<Export>, name: Var) {
    exists i :: 0 <= i < |e| && e[i].name == name
  }

  /** The list of exports `to_env_exports` writes, in order: the prover type,
      the contemplant name if set, the HTTP port, the moongate endpoint if
      set, the heartbeat interval, the stored-proof limit, the log path, the
      watcher interval, and the escaped SSH keys if set. */
  function Exports(c: ContemplantConfig): (e: seq<Export>)
    ensures |e| == 6 + OptionalCount(c)
    ensures e[0] == Export(ProverType, c.proverType)
  {
    var m := MandatoryExports(c);
    var keys := if c.sshAuthorizedKeys.Some?
      then [Export(SshAuthorizedKeys, EscapeKeys(c.sshAuthorizedKeys.value))]
      else [];
    [m[0]] + Optional(ContemplantName, c.contemplantName) + [m[1]]
    + Optional(MoongateEndpoint, c.moongateEndpoint) + m[2..] + keys
  }

  /** The export list as its parts: prover type, optional name, HTTP port,
      optional endpoint, the four remaining mandatory exports, optional keys. */
  lemma ExportsParts(c: ContemplantConfig)
    ensures Exports(c) == [MandatoryExports(c)[0]] + (Optional(ContemplantName, c.contemplantName)
      + ([MandatoryExports(c)[1]] + (Optional(MoongateEndpoint, c.moongateEndpoint)
      + (MandatoryExports(c)[2..] + OptionalKeys(c)))))
  {
  }

  function OptionalKeys(c: ContemplantConfig): (r: seq<Export>)
    ensures |r| == if c.sshAuthorizedKeys.Some? then 1 else 0
    ensures forall i :: 0 <= i < |r| ==> r[i] == Export(SshAuthorizedKeys, EscapeKeys(c.sshAuthorizedKeys.value))
  {
    if c.sshAuthorizedKeys.Some? then [Export(SshAuthorizedKeys, EscapeKeys(c.sshAuthorizedKeys.value))] else []
  }

  /** The six mandatory exports appear in their fixed relative order. */
  lemma ExportsKeepMandatoryOrder(c: ContemplantConfig)
    ensures IsSubsequence(MandatoryExports(c), Exports(c))
  {
    ExportsParts(c);
    var m := MandatoryExports(c);
    MandatoryOrder(m, Optional(ContemplantName, c.contemplantName),
      Optional(MoongateEndpoint, c.moongateEndpoint), m[2..], OptionalKeys(c));
  }

  /** The names of the exports, in order. */
  function Names(e: seq<Export>): (n: seq<Var>)
    ensures |n| == |e| && forall i :: 0 <= i < |e| ==> n[i] == e[i].name
  {
    seq(|e|, i requires 0 <= i < |e| => e[i].name)
  }

  /** The exported variables, in order, given which optional settings are present. */
  function NameSeq(name: bool, endpoint: bool, keys: bool): (n: seq<Var>)
    ensures forall i :: 0 <= i < |n| - 1 ==> Rank(n[i]) < Rank(n[i + 1])
    ensures ContemplantName in n <==> name
    ensures MoongateEndpoint in n <==> endpoint
    ensures SshAuthorizedKeys in n <==> keys
  {
    [ProverType] + ((if name then [ContemplantName] else [])
    + ([HttpPort] + ((if endpoint then [MoongateEndpoint] else [])
    + ([HeartbeatIntervalSeconds, MaxProofsStored, MoongateLogPath, WatcherPollingIntervalMs]
    + (if keys then [SshAuthorizedKeys] else [])))))
  }

  lemma ExportsNames(c: ContemplantConfig)
    ensures Names(Exports(c)) == NameSeq(c.contemplantName.Some?, c.moongateEndpoint.Some?, c.sshAuthorizedKeys.Some?)
  {
    ExportsParts(c);
    var m := MandatoryExports(c);
    var name := Optional(ContemplantName, c.contemplantName);
    var endpoint := Optional(MoongateEndpoint, c.moongateEndpoint);
    var keys := OptionalKeys(c);
    NamesAppend(m[2..], keys);
    NamesAppend(endpoint, m[2..] + keys);
    NamesAppend([m[1]], endpoint + (m[2..] + keys));
    NamesAppend(name, [m[1]] + (endpoint + (m[2..] + keys)));
    NamesAppend([m[0]], name + ([m[1]] + (endpoint + (m[2..] + keys))));
    assert Names([m[0]]) == [ProverType];
    assert Names([m[1]]) == [HttpPort];
    assert Names(m[2..]) == [HeartbeatIntervalSeconds, MaxProofsStored, MoongateLogPath, WatcherPollingIntervalMs];
    assert Names(name) == if c.contemplantName.Some? then [ContemplantName] else [];
    assert Names(endpoint) == if c.moongateEndpoint.Some? then [MoongateEndpoint] else [];
    assert Names(keys) == if c.sshAuthorizedKeys.Some? then [SshAuthorizedKeys] else [];
  }

  lemma NamesAppend(a: seq<Export>, b: seq<Export>)
    ensures Names(a + b) == Names(a) + Names(b)
  {
  }

  /** Each optional export is present exactly when its setting is. */
  lemma ExportsOptional(c: ContemplantConfig)
    ensures HasExport(Exports(c), ContemplantName) <==> c.contemplantName.Some?
    ensures HasExport(Exports(c), MoongateEndpoint) <==> c.moongateEndpoint.Some?
    ensures HasExport(Exports(c), SshAuthorizedKeys) <==> c.sshAuthorizedKeys.Some?
  {
    var e := Exports(c);
    ExportsNames(c);
    HasExportNames(e, ContemplantName);
    HasExportNames(e, MoongateEndpoint);
    HasExportNames(e, SshAuthorizedKeys);
  }

  /** A present optional export carries its setting's value, the SSH keys escaped. */
  lemma ExportsOptionalValues(c: ContemplantConfig)
    ensures c.contemplantName.Some? ==> Export(ContemplantName, c.contemplantName.value) in Exports(c)
    ensures c.moongateEndpoint.Some? ==> Export(MoongateEndpoint, c.moongateEndpoint.value) in Exports(c)
    ensures c.sshAuthorizedKeys.Some? ==>
      Export(SshAuthorizedKeys, EscapeKeys(c.sshAuthorizedKeys.value)) in Exports(c)
  {
    var e := Exports(c);
    ExportsParts(c);
    var k := |Optional(ContemplantName, c.contemplantName)|;
    assert c.contemplantName.Some? ==> e[1] == Export(ContemplantName, c.contemplantName.value);
    assert c.moongateEndpoint.Some? ==> e[2 + k] == Export(MoongateEndpoint, c.moongateEndpoint.value);
    assert c.sshAuthorizedKeys.Some? ==>
      e[|e| - 1] == Export(SshAuthorizedKeys, EscapeKeys(c.sshAuthorizedKeys.value));
  }

  lemma HasExportNames(e: seq<Export>, v: Var)
    ensures HasExport(e, v) <==> v in Names(e)
  {
    if v in Names(e) {
      var i :| 0 <= i < |e| && Names(e)[i] == v;
      assert e[i].name == v;
    }
  }

  /** The position of a variable in the order the exports are written. */
  function Rank(v: Var): nat {
    match v
    case ProverType => 0
    case ContemplantName => 1
    case HttpPort => 2
    case MoongateEndpoint => 3
    case HeartbeatIntervalSeconds => 4
    case MaxProofsStored => 5
    case MoongateLogPath => 6
    case WatcherPollingIntervalMs => 7
    case SshAuthorizedKeys => 8
  }

  /** The exports follow the fixed variable order, so no variable is exported
      twice. */
  lemma ExportsOrdered(c: ContemplantConfig)
    ensures forall i, j :: 0 <= i < j < |Exports(c)| ==> Rank(Exports(c)[i].name) < Rank(Exports(c)[j].name)
    ensures forall i, j :: 0 <= i < j < |Exports(c)| ==> Exports(c)[i].name != Exports(c)[j].name
  {
    ExportsNames(c);
    NamesOrdered(Exports(c));
  }

  lemma NamesOrdered(e: seq<Export>)
    requires forall i :: 0 <= i < |Names(e)| - 1 ==> Rank(Names(e)[i]) < Rank(Names(e)[i + 1])
    ensures forall i, j :: 0 <= i < j < |e| ==> Rank(e[i].name) < Rank(e[j].name)
  {
    var n := Names(e);
    var ranks := seq(|n|, i requires 0 <= i < |n| => Rank(n[i]));
    AdjacentIncreasing(ranks);
    assert forall i :: 0 <= i < |e| ==> ranks[i] == Rank(e[i].name);
  }

  /** A sequence that increases at every step increases between any two positions. */
  lemma {:induction false} AdjacentIncreasing(s: seq<nat>)
    requires forall i :: 0 <= i < |s| - 1 ==> s[i] < s[i + 1]
    ensures forall i, j :: 0 <= i < j < |s| ==> s[i] < s[j]
    decreases |s|
  {
    if |s| > 1 {
      var t := s[1..];
      AdjacentIncreasing(t);
      forall j | 1 <= j < |s|
        ensures s[0] < s[j]
      {
        assert s[j] == t[j - 1];
        if j > 1 {
          assert t[0] < t[j - 1];
        }
      }
    }
  }

  lemma MandatoryOrder(m: seq<Export>, name: seq<Export>, endpoint: seq<Export>, tail: seq<Export>, keys: seq<Export>)
    requires |m| == 6 && tail == m[2..]
    ensures IsSubsequence(m, [m[0]] + (name + ([m[1]] + (endpoint + (tail + keys)))))
  {
    SubsequenceRefl(tail);
    SubsequenceAppend(tail, tail, keys);
    SubsequencePrepend(tail, endpoint, tail + keys);
    SubsequenceCons(m[1], tail, endpoint + (tail + keys));
    SubsequencePrepend([m[1]] + tail, name, [m[1]] + (endpoint + (tail + keys)));
    SubsequenceCons(m[0], [m[1]] + tail, name + ([m[1]] + (endpoint + (tail + keys))));
    assert [m[0]] + ([m[1]] + tail) == m;
  }

  function RenderAll(e: seq<Export>): (r: seq<string>)
    ensures |r| == |e| && forall i :: 0 <= i < |e| ==> r[i] == Render(e[i])
  {
    seq(|e|, i requires 0 <= i < |e| => Render(e[i]))
  }

  /** `ContemplantConfig::to_env_exports`: the rendered exports joined by
      `"; "`. The text always starts with the prover-type export followed by a
      separator, and ends with the SSH keys export when keys are configured and
      with the watcher-interval export otherwise. */
  function ToEnvExports(c: ContemplantConfig): (r: string)
    ensures Render(Export(ProverType, c.proverType)) + "; " <= r
    ensures c.sshAuthorizedKeys.Some? ==>
      exists p :: r == p + "; " + Render(Export(SshAuthorizedKeys, EscapeKeys(c.sshAuthorizedKeys.value)))
    ensures c.sshAuthorizedKeys.None? ==>
      exists p :: r == p + "; " + Render(Export(WatcherPollingIntervalMs, ToDecimal(c.watcherPollingIntervalMs)))
  {
    var e := Exports(c);
    var parts := RenderAll(e);
    assert e[|e| - 1] == if c.sshAuthorizedKeys.Some?
      then Export(SshAuthorizedKeys, EscapeKeys(c.sshAuthorizedKeys.value))
      else Export(WatcherPollingIntervalMs, ToDecimal(c.watcherPollingIntervalMs));
    JoinFirst(parts, "; ");
    JoinLast(parts, "; ");
    Join(parts, "; ")
  }

  lemma DefaultDecimals()
    ensures ToDecimal(9011) == "9011" && ToDecimal(30) == "30"
    ensures ToDecimal(2) == "2" && ToDecimal(2000) == "2000"
  {
    assert ToDecimal(9) == "9";
    assert ToDecimal(90) == "90";
    assert ToDecimal(901) == "901";
    assert ToDecimal(3) == "3";
    assert ToDecimal(20) == "20";
    assert ToDecimal(200) == "200";
  }

  /** The exports of the default contemplant configuration, in full: the six
      mandatory exports with the default values and nothing else. */
  lemma DefaultContemplantExports()
    ensures ToEnvExports(DefaultContemplant()) ==
      Render(Export(ProverType, "cpu")) + "; " + (
      Render(Export(HttpPort, "9011")) + "; " + (
      Render(Export(HeartbeatIntervalSeconds, "30")) + "; " + (
      Render(Export(MaxProofsStored, "2")) + "; " + (
      Render(Export(MoongateLogPath, "./moongate.log")) + "; " +
      Render(Export(WatcherPollingIntervalMs, "2000"))))))
  {
    var c := DefaultContemplant();
    DefaultDecimals();
    var e := Exports(c);
    assert e == MandatoryExports(c);
    var parts := RenderAll(e);
    assert parts == [
      Render(Export(ProverType, "cpu")),
      Render(Export(HttpPort, "9011")),
      Render(Export(HeartbeatIntervalSeconds, "30")),
      Render(Export(MaxProofsStored, "2")),
      Render(Export(MoongateLogPath, "./moongate.log")),
      Render(Export(WatcherPollingIntervalMs, "2000")) ];
    assert Join(parts[5..], "; ") == parts[5];
    assert Join(parts[4..], "; ") == parts[4] + "; " + parts[5];
    assert Join(parts[3..], "; ") == parts[3] + "; " + (parts[4] + "; " + parts[5]);
    assert Join(parts[2..], "; ") == parts[2] + "; " + (parts[3] + "; " + (parts[4] + "; " + parts[5]));
    assert Join(parts[1..], "; ") == parts[1] + "; " + Join(parts[2..], "; ");
    assert Join(parts, "; ") == parts[0] + "; " + Join(parts[1..], "; ");
  }

  /** The SSH-keys export: the escaped keys sit between the escaped quotes,
      the line has no raw newline, every double quote inside the value comes
      right after a backslash, and the value reads back as the keys. */
  lemma RenderSshKeys(keys: string)
    ensures Render(Export(SshAuthorizedKeys, EscapeKeys(keys)))
            == "export SSH_AUTHORIZED_KEYS=\\\"" + EscapeKeys(keys) + "\\\""
    ensures '\n' !in Render(Export(SshAuthorizedKeys, EscapeKeys(keys)))
    ensures WellEscaped(EscapeKeys(keys)) && Unescape(EscapeKeys(keys)) == keys
    ensures var v := EscapeKeys(keys);
            forall i :: 0 <= i < |v| && v[i] == '"' ==> 0 < i && v[i - 1] == '\\'
  {
    var v := EscapeKeys(keys);
    assert WellEscaped(v) by {
      EscapeKeysIsEscapeEach(keys);
      EscapeEachWellEscaped(keys);
    }
    assert forall i :: 0 <= i < |v| && v[i] == '"' ==> 0 < i && v[i - 1] == '\\' by {
      WellEscapedQuotes(v);
    }
    assert Unescape(v) == keys by {
      UnescapeEscapeKeys(keys);
    }
    SshKeysLine(v);
  }

  lemma SshKeysLine(v: string)
    ensures Render(Export(SshAuthorizedKeys, v)) == "export SSH_AUTHORIZED_KEYS=\\\"" + v + "\\\""
    ensures '\n' !in v ==> '\n' !in Render(Export(SshAuthorizedKeys, v))
  {
  }
}
