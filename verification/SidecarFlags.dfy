/** The command line of the sidecar: the flag set, the runtime arguments read
    from it, and the arguments written back. */
module SidecarFlags {
  import opened Base
  import opened Decimal

  type Float32 = nat   // bit patterns
  type Float64 = nat

  datatype Flag =
    | Kubeconfig | CSIAddress | Version | CSITimeout | GRPCPort | TLSCert | TLSKey | TLSMinVersion | TLSCipherSuites
    | TLSCurvePreferences | Audience | MaxStreamingDurationMin | KubeAPIQPS | KubeAPIBurst | HTTPEndpoint | MetricsPath | DisableMetrics

  datatype Value = Text(s: string) | Bool(b: bool) | Int(n: int64) | Duration(ns: int64) | Float(x: Float64)

  /** The text forms of the standard library, strconv and time, that are not
      modelled: any functions.  Of integers they are the forms other than a plain
      decimal numeral, such as those with a base prefix. */
  datatype Codec = Codec(
    readBool: string -> Option<bool>,
    readOtherInt: string -> Option<int64>,
    durationText: int64 -> string,
    readDuration: string -> Option<int64>,
    floatText: Float32 -> string,
    readFloat: string -> Option<Float64>,
    narrow: Float64 -> Float32,
    five: Float64)

  /** ParseInt(text, 0, 64). */
  function ReadIntText(c: Codec, text: string): Option<int64> {
    match ReadInt64(text)
    case Some(n) => Some(n)
    case None => c.readOtherInt(text)
  }

  datatype Env = Env(tlsCertPath: string, tlsKeyPath: string)

  datatype Args = Args(
    csiAddress: string, csiTimeout: int64, kubeAPIBurst: int64, kubeAPIQPS: Float32, kubeconfig: string, grpcPort: int64,
    tlsCertFile: string, tlsKeyFile: string, httpEndpoint: string, metricsPath: string, audience: string,
    tlsMinVersion: string, tlsCipherSuites: string, tlsCurvePreferences: string)

  const MINUTE: int64 := 60_000_000_000

  function Name(f: Flag): string {
    match f
    case Kubeconfig => "kubeconfig"
    case CSIAddress => "csi-address"
    case Version => "version"
    case CSITimeout => "timeout"
    case GRPCPort => "port"
    case TLSCert => "tls-cert"
    case TLSKey => "tls-key"
    case TLSMinVersion => "tls-min-version"
    case TLSCipherSuites => "tls-cipher-suites"
    case TLSCurvePreferences => "tls-curve-preferences"
    case Audience => "audience"
    case MaxStreamingDurationMin => "max-streaming-duration-min"
    case KubeAPIQPS => "kube-api-qps"
    case KubeAPIBurst => "kube-api-burst"
    case HTTPEndpoint => "http-endpoint"
    case MetricsPath => "metrics-path"
    case DisableMetrics => "disable-metrics"
  }

  function Default(f: Flag, env: Env, c: Codec): Value {
    match f
    case Kubeconfig => Text("")
    case CSIAddress => Text("/run/csi/socket")
    case Version => Bool(false)
    case CSITimeout => Duration(MINUTE)
    case GRPCPort => Int(50051)
    case TLSCert => Text(env.tlsCertPath)
    case TLSKey => Text(env.tlsKeyPath)
    case TLSMinVersion => Text("")
    case TLSCipherSuites => Text("")
    case TLSCurvePreferences => Text("")
    case Audience => Text("")
    case MaxStreamingDurationMin => Int(10)
    case KubeAPIQPS => Float(c.five)
    case KubeAPIBurst => Int(10)
    case HTTPEndpoint => Text(":8080")
    case MetricsPath => Text("/metrics")
    case DisableMetrics => Bool(false)
  }

  type FlagSet = map<Flag, Value>

  /** newSidecarFlagSet. */
  function NewFlagSet(env: Env, c: Codec): (fs: FlagSet)
    ensures forall f :: f in fs && fs[f] == Default(f, env, c)
  {
    map f: Flag | true :: Default(f, env, c)
  }

  // ----- package flag

  /** The flag of that name. */
  ghost function Find(name: string): Option<Flag> {
    if exists f :: Name(f) == name then
      var f :| Name(f) == name;
      Some(f)
    else None
  }

  /** Set(text) on a flag whose value is of the kind of v. */
  function Convert(c: Codec, v: Value, text: string): Option<Value> {
    match v
    case Text(_) => Some(Text(text))
    case Bool(_) => (match c.readBool(text) case None => None case Some(b) => Some(Bool(b)))
    case Int(_) => (match ReadIntText(c, text) case None => None case Some(n) => Some(Int(n)))
    case Duration(_) => (match c.readDuration(text) case None => None case Some(ns) => Some(Duration(ns)))
    case Float(_) => (match c.readFloat(text) case None => None case Some(x) => Some(Float(x)))
  }

  /** The position of the first '=' in name from i on, or the length. */
  function EqualsAt(name: string, i: nat): (k: nat)
    requires i <= |name|
    ensures i <= k <= |name|
    decreases |name| - i
  {
    if i == |name| || name[i] == '=' then i else EqualsAt(name, i + 1)
  }

  /** Parse: the flag set after reading the flags in front of args, and the rest;
      None for a usage error. */
  ghost function Parse(c: Codec, fs: FlagSet, args: seq<string>): Option<(FlagSet, seq<string>)>
    requires forall f :: f in fs
    decreases |args|
  {
    if args == [] then Some((fs, args))
    else
      var s := args[0];
      if |s| < 2 || s[0] != '-' then Some((fs, args))
      else if s == "--" then Some((fs, args[1..]))
      else
        var word := if s[1] == '-' then s[2..] else s[1..];
        if word == "" || word[0] == '-' || word[0] == '=' then None
        else
          var k := EqualsAt(word, 1);
          var hasValue := k < |word|;
          match Find(word[..k])
          case None => None
          case Some(f) =>
            if fs[f].Bool? || hasValue then
              var text := if hasValue then word[k + 1..] else "true";
              match Convert(c, fs[f], text)
              case None => None
              case Some(value) => Parse(c, fs[f := value], args[1..])
            else if |args| == 1 then None
            else
              match Convert(c, fs[f], args[1])
              case None => None
              case Some(value) => Parse(c, fs[f := value], args[2..])
  }

  // ----- reading and writing the runtime arguments

  function StringOf(v: Value): string { if v.Text? then v.s else "" }
  function IntOf(v: Value): int64 { if v.Int? then v.n else if v.Duration? then v.ns else 0 }
  function FloatOf(v: Value): Float64 { if v.Float? then v.x else 0 }

  /** runtimeArgsFromFlags. */
  function RuntimeArgsFromFlags(c: Codec, fs: FlagSet): Args
    requires forall f :: f in fs
  {
    Args(
      csiAddress := StringOf(fs[CSIAddress]),
      csiTimeout := IntOf(fs[CSITimeout]),
      kubeAPIBurst := IntOf(fs[KubeAPIBurst]),
      kubeAPIQPS := c.narrow(FloatOf(fs[KubeAPIQPS])),
      kubeconfig := StringOf(fs[Kubeconfig]),
      grpcPort := IntOf(fs[GRPCPort]),
      tlsCertFile := StringOf(fs[TLSCert]),
      tlsKeyFile := StringOf(fs[TLSKey]),
      httpEndpoint := StringOf(fs[HTTPEndpoint]),
      metricsPath := StringOf(fs[MetricsPath]),
      audience := StringOf(fs[Audience]),
      tlsMinVersion := StringOf(fs[TLSMinVersion]),
      tlsCipherSuites := StringOf(fs[TLSCipherSuites]),
      tlsCurvePreferences := StringOf(fs[TLSCurvePreferences]))
  }

  /** One argument: whether it has the value of the default, and its text. */
  datatype Setting = Setting(flag: Flag, isDefault: bool, text: string)

  /** The flags that are written, in order. */
  function Written(): seq<Flag> {
    [Kubeconfig, CSIAddress, CSITimeout, GRPCPort, TLSCert, TLSKey, KubeAPIBurst, KubeAPIQPS, HTTPEndpoint, MetricsPath,
     Audience, TLSMinVersion, TLSCipherSuites, TLSCurvePreferences]
  }

  function SettingOf(c: Codec, a: Args, f: Flag): Setting {
    match f
    case Kubeconfig => Setting(f, a.kubeconfig == "", a.kubeconfig)
    case CSIAddress => Setting(f, a.csiAddress == "/run/csi/socket", a.csiAddress)
    case CSITimeout => Setting(f, a.csiTimeout == MINUTE, c.durationText(a.csiTimeout))
    case GRPCPort => Setting(f, a.grpcPort == 50051, Numeral(a.grpcPort as int))
    case TLSCert => Setting(f, a.tlsCertFile == "", a.tlsCertFile)
    case TLSKey => Setting(f, a.tlsKeyFile == "", a.tlsKeyFile)
    case KubeAPIBurst => Setting(f, a.kubeAPIBurst == 10, Numeral(a.kubeAPIBurst as int))
    case KubeAPIQPS => Setting(f, a.kubeAPIQPS == c.narrow(c.five), c.floatText(a.kubeAPIQPS))
    case HTTPEndpoint => Setting(f, a.httpEndpoint == ":8080", a.httpEndpoint)
    case MetricsPath => Setting(f, a.metricsPath == "/metrics", a.metricsPath)
    case Audience => Setting(f, a.audience == "", a.audience)
    case TLSMinVersion => Setting(f, a.tlsMinVersion == "", a.tlsMinVersion)
    case TLSCipherSuites => Setting(f, a.tlsCipherSuites == "", a.tlsCipherSuites)
    case TLSCurvePreferences => Setting(f, a.tlsCurvePreferences == "", a.tlsCurvePreferences)
    case _ => Setting(f, true, "")
  }

  function Settings(c: Codec, a: Args, flags: seq<Flag>): (settings: seq<Setting>)
    ensures |settings| == |flags|
    ensures forall i :: 0 <= i < |flags| ==> settings[i] == SettingOf(c, a, flags[i]) && settings[i].flag == flags[i]
  {
    seq(|flags|, i requires 0 <= i < |flags| => SettingOf(c, a, flags[i]))
  }

  /** The words for one setting: none if it has the value of the default. */
  function Chunk(one: Setting): seq<string> {
    if one.isDefault then [] else ["-" + Name(one.flag), one.text]
  }

  function Words(settings: seq<Setting>): seq<string> {
    if settings == [] then [] else Chunk(settings[0]) + Words(settings[1..])
  }

  /** One argument after the other, those that are not the default. */
  method WriteSettings(settings: seq<Setting>) returns (words: seq<string>)
    ensures words == Words(settings)
  {
    words := [];
    assert settings[0..] == settings;
    for i := 0 to |settings|
      invariant words + Words(settings[i..]) == Words(settings)
    {
      WordsStep(settings, i);
      Append2(words, Chunk(settings[i]), Words(settings[i + 1..]));
      words := words + Chunk(settings[i]);
    }
  }

  method RuntimeArgsToArgv(c: Codec, progName: string, a: Args) returns (argv: seq<string>)
    ensures argv == [progName] + Words(Settings(c, a, Written()))
  {
    var words := WriteSettings(Settings(c, a, Written()));
    argv := [progName] + words;
  }

  lemma WordsStep(settings: seq<Setting>, i: nat)
    requires i < |settings|
    ensures Words(settings[i..]) == Chunk(settings[i]) + Words(settings[i + 1..])
  {
    assert settings[i..][1..] == settings[i + 1..];
  }

  // ----- the round trip

  /** The flag set after all settings that are written. */
  function Applied(c: Codec, fs: FlagSet, settings: seq<Setting>): Option<FlagSet>
    requires forall f :: f in fs
  {
    if settings == [] then Some(fs)
    else if settings[0].isDefault then Applied(c, fs, settings[1..])
    else
      match Convert(c, fs[settings[0].flag], settings[0].text)
      case None => None
      case Some(value) => Applied(c, fs[settings[0].flag := value], settings[1..])
  }

  lemma NamesDiffer(f: Flag, g: Flag)
    requires f != g
    ensures Name(f) != Name(g)
  {
  }

  lemma FindsName(f: Flag)
    ensures Find(Name(f)) == Some(f)
  {
    forall g | g != f ensures Name(g) != Name(f) {
      NamesDiffer(f, g);
    }
  }

  lemma {:induction false} NoEquals(name: string, i: nat)
    requires i <= |name| && forall j :: 0 <= j < |name| ==> name[j] != '='
    ensures EqualsAt(name, i) == |name|
    decreases |name| - i
  {
    if i < |name| {
      NoEquals(name, i + 1);
    }
  }

  ghost predicate PlainName(name: string) {
    name != "" && name[0] != '-' && forall j :: 0 <= j < |name| ==> name[j] != '='
  }

  lemma NamesArePlain1()
    ensures PlainName("kubeconfig") && PlainName("csi-address") && PlainName("version") && PlainName("timeout")
    ensures PlainName("port") && PlainName("tls-cert") && PlainName("tls-key") && PlainName("tls-min-version")
  {
  }

  lemma NamesArePlain2()
    ensures PlainName("tls-cipher-suites") && PlainName("tls-curve-preferences") && PlainName("audience")
  {
  }

  lemma NamesArePlain3()
    ensures PlainName("max-streaming-duration-min") && PlainName("kube-api-qps") && PlainName("kube-api-burst")
  {
  }

  lemma NamesArePlain4()
    ensures PlainName("http-endpoint") && PlainName("metrics-path") && PlainName("disable-metrics")
  {
  }

  lemma NameIsPlain(f: Flag)
    ensures PlainName(Name(f))
  {
    NamesArePlain1();
    NamesArePlain2();
    NamesArePlain3();
    NamesArePlain4();
  }

  /** A flag that takes a value takes the next word, whatever it looks like. */
  lemma ParsePair(c: Codec, fs: FlagSet, f: Flag, text: string, rest: seq<string>)
    requires (forall f :: f in fs) && !fs[f].Bool?
    ensures Parse(c, fs, ["-" + Name(f), text] + rest) ==
              match Convert(c, fs[f], text)
              case None => None
              case Some(value) => Parse(c, fs[f := value], rest)
  {
    var name, s, args := Name(f), "-" + Name(f), ["-" + Name(f), text] + rest;
    NameIsPlain(f);
    NoEquals(name, 1);
    FindsName(f);
    assert s[1..] == name && name[..|name|] == name;
    assert args[2..] == rest && args[1] == text;
  }

  lemma {:induction false} ParseWords(c: Codec, fs: FlagSet, settings: seq<Setting>)
    requires forall f :: f in fs
    requires forall i :: 0 <= i < |settings| ==> !fs[settings[i].flag].Bool?
    ensures Parse(c, fs, Words(settings)) ==
              match Applied(c, fs, settings)
              case None => None
              case Some(applied) => Some((applied, []))
  {
    if settings != [] {
      var one, more := settings[0], settings[1..];
      if one.isDefault {
        ParseWords(c, fs, more);
        assert Words(settings) == Words(more);
      } else {
        ParsePair(c, fs, one.flag, one.text, Words(more));
        if Convert(c, fs[one.flag], one.text).Some? {
          ParseWords(c, fs[one.flag := Convert(c, fs[one.flag], one.text).value], more);
        }
      }
    }
  }

  /** Every setting that is written has a text its flag accepts. */
  ghost predicate Convertible(c: Codec, fs: FlagSet, settings: seq<Setting>)
    requires forall f :: f in fs
  {
    forall i :: 0 <= i < |settings| && !settings[i].isDefault ==> Convert(c, fs[settings[i].flag], settings[i].text).Some?
  }

  lemma ConvertibleCons(c: Codec, fs: FlagSet, one: Setting, more: seq<Setting>)
    requires forall f :: f in fs
    ensures Convertible(c, fs, [one] + more) <==>
              (one.isDefault || Convert(c, fs[one.flag], one.text).Some?) && Convertible(c, fs, more)
  {
    var settings := [one] + more;
    assert settings[0] == one && forall i :: 0 <= i < |more| ==> settings[i + 1] == more[i];
  }

  /** Writing succeeds exactly if every text is accepted ... */
  lemma {:induction false} AppliedIff(c: Codec, fs: FlagSet, settings: seq<Setting>)
    requires forall f :: f in fs
    requires forall i, j :: 0 <= i < j < |settings| ==> settings[i].flag != settings[j].flag
    ensures Applied(c, fs, settings).Some? <==> Convertible(c, fs, settings)
  {
    if settings != [] {
      var one, more := settings[0], settings[1..];
      assert settings == [one] + more;
      ConvertibleCons(c, fs, one, more);
      if one.isDefault {
        AppliedIff(c, fs, more);
      } else if Convert(c, fs[one.flag], one.text).Some? {
        var fs' := fs[one.flag := Convert(c, fs[one.flag], one.text).value];
        AppliedIff(c, fs', more);
        assert Convertible(c, fs', more) <==> Convertible(c, fs, more);
      }
    }
  }

  /** ... and then sets exactly the flags that were written. */
  lemma {:induction false} AppliedAt(c: Codec, fs: FlagSet, settings: seq<Setting>)
    requires forall f :: f in fs
    requires forall i, j :: 0 <= i < j < |settings| ==> settings[i].flag != settings[j].flag
    requires Applied(c, fs, settings).Some?
    ensures forall f :: f in Applied(c, fs, settings).value
    ensures forall i :: 0 <= i < |settings| ==>
              Applied(c, fs, settings).value[settings[i].flag] ==
                if settings[i].isDefault then fs[settings[i].flag]
                else Convert(c, fs[settings[i].flag], settings[i].text).GetOr(Text(""))
    ensures forall f :: (forall i :: 0 <= i < |settings| ==> settings[i].flag != f) ==> Applied(c, fs, settings).value[f] == fs[f]
  {
    if settings != [] {
      var one, more := settings[0], settings[1..];
      var fs' := if one.isDefault then fs else fs[one.flag := Convert(c, fs[one.flag], one.text).value];
      AppliedAt(c, fs', more);
      assert forall i :: 0 < i < |settings| ==> settings[i] == more[i - 1];
    }
  }

  /** The flags that have a setting: all but those that control the process. */
  predicate HasSetting(f: Flag) {
    !f.Version? && !f.MaxStreamingDurationMin? && !f.DisableMetrics?
  }

  lemma WrittenFlags(f: Flag)
    ensures HasSetting(f) <==> f in Written()
  {
    var w := Written();
    assert w[0] == Kubeconfig && w[1] == CSIAddress && w[2] == CSITimeout && w[3] == GRPCPort && w[4] == TLSCert && w[5] == TLSKey && w[6] == KubeAPIBurst;
    assert w[7] == KubeAPIQPS && w[8] == HTTPEndpoint && w[9] == MetricsPath && w[10] == Audience && w[11] == TLSMinVersion && w[12] == TLSCipherSuites;
    assert w[13] == TLSCurvePreferences;
  }

  lemma WrittenOnce()
    ensures forall i, j :: 0 <= i < j < |Written()| ==> Written()[i] != Written()[j]
  {
  }

  /** What is to be found in a flag after parsing. */
  function After(c: Codec, env: Env, a: Args, f: Flag): Value {
    if SettingOf(c, a, f).isDefault then Default(f, env, c)
    else Convert(c, Default(f, env, c), SettingOf(c, a, f).text).GetOr(Text(""))
  }

  /** The timeout and the rate, if they are written, are read as they were. */
  ghost predicate ReadsBack(c: Codec, a: Args) {
    && (a.csiTimeout != MINUTE ==> c.readDuration(c.durationText(a.csiTimeout)) == Some(a.csiTimeout))
    && (a.kubeAPIQPS != c.narrow(c.five) ==>
          c.readFloat(c.floatText(a.kubeAPIQPS)).Some? && c.narrow(c.readFloat(c.floatText(a.kubeAPIQPS)).value) == a.kubeAPIQPS)
  }

  lemma IntReadsBack(c: Codec, n: int64)
    ensures ReadIntText(c, Numeral(n as int)) == Some(n)
  {
    NumeralReadsWhole(n as int);
  }

  /** The setting of a flag is not written, or its flag accepts the text. */
  ghost predicate Accepted(c: Codec, env: Env, a: Args, f: Flag) {
    SettingOf(c, a, f).isDefault || Convert(c, Default(f, env, c), SettingOf(c, a, f).text).Some?
  }

  /** Only the timeout and the rate can have a text that their flag rejects. */
  lemma SettingConverts(c: Codec, env: Env, a: Args, f: Flag)
    requires !f.CSITimeout? && !f.KubeAPIQPS?
    ensures Accepted(c, env, a, f)
  {
    IntReadsBack(c, a.grpcPort);
    IntReadsBack(c, a.kubeAPIBurst);
  }

  /** A list of different flags that holds all that have a setting. */
  ghost predicate Complete(flags: seq<Flag>) {
    && (forall i, j :: 0 <= i < j < |flags| ==> flags[i] != flags[j])
    && (forall f :: HasSetting(f) <==> f in flags)
  }

  lemma SettingsConvert(c: Codec, env: Env, a: Args, flags: seq<Flag>)
    requires Complete(flags)
    ensures Convertible(c, NewFlagSet(env, c), Settings(c, a, flags)) <==> Accepted(c, env, a, CSITimeout) && Accepted(c, env, a, KubeAPIQPS)
  {
    var fs, settings := NewFlagSet(env, c), Settings(c, a, flags);
    assert HasSetting(CSITimeout) && HasSetting(KubeAPIQPS);
    var i :| 0 <= i < |flags| && flags[i] == CSITimeout;
    var j :| 0 <= j < |flags| && flags[j] == KubeAPIQPS;
    assert settings[i] == SettingOf(c, a, CSITimeout) && settings[j] == SettingOf(c, a, KubeAPIQPS);
    forall k | 0 <= k < |flags|
      ensures (settings[k].isDefault || Convert(c, fs[settings[k].flag], settings[k].text).Some?) <==> Accepted(c, env, a, flags[k])
    {
      assert settings[k] == SettingOf(c, a, flags[k]) && settings[k].flag == flags[k];
    }
    forall k | 0 <= k < |flags| && k != i && k != j ensures Accepted(c, env, a, flags[k]) {
      assert flags[k] != flags[i] && flags[k] != flags[j];
      SettingConverts(c, env, a, flags[k]);
    }
  }

  /** What parsing the written words yields, flag by flag. */
  lemma SettingsParse(c: Codec, env: Env, a: Args, flags: seq<Flag>)
    requires forall i, j :: 0 <= i < j < |flags| ==> flags[i] != flags[j]
    requires forall i :: 0 <= i < |flags| ==> HasSetting(flags[i])
    ensures
      var parsed := Parse(c, NewFlagSet(env, c), Words(Settings(c, a, flags)));
      && (parsed.Some? <==> Convertible(c, NewFlagSet(env, c), Settings(c, a, flags)))
      && (parsed.Some? ==>
            && parsed.value.1 == []
            && (forall f :: f in parsed.value.0)
            && forall i :: 0 <= i < |flags| ==> parsed.value.0[flags[i]] == After(c, env, a, flags[i]))
  {
    var fs, settings := NewFlagSet(env, c), Settings(c, a, flags);
    AppliedIff(c, fs, settings);
    ParseWords(c, fs, settings);
    if Applied(c, fs, settings).Some? {
      AppliedAt(c, fs, settings);
      forall i | 0 <= i < |flags| ensures Applied(c, fs, settings).value[flags[i]] == After(c, env, a, flags[i]) {
        assert settings[i].flag == flags[i];
      }
    }
  }

  /** The value of a flag is that of the argument, or a file name from the
      environment where the arguments have none. */
  ghost predicate Carries(c: Codec, env: Env, a: Args, f: Flag, v: Value) {
    match f
    case Kubeconfig => StringOf(v) == a.kubeconfig
    case CSIAddress => StringOf(v) == a.csiAddress
    case CSITimeout => IntOf(v) == a.csiTimeout
    case GRPCPort => IntOf(v) == a.grpcPort
    case TLSCert => StringOf(v) == if a.tlsCertFile == "" then env.tlsCertPath else a.tlsCertFile
    case TLSKey => StringOf(v) == if a.tlsKeyFile == "" then env.tlsKeyPath else a.tlsKeyFile
    case KubeAPIBurst => IntOf(v) == a.kubeAPIBurst
    case KubeAPIQPS => c.narrow(FloatOf(v)) == a.kubeAPIQPS
    case HTTPEndpoint => StringOf(v) == a.httpEndpoint
    case MetricsPath => StringOf(v) == a.metricsPath
    case Audience => StringOf(v) == a.audience
    case TLSMinVersion => StringOf(v) == a.tlsMinVersion
    case TLSCipherSuites => StringOf(v) == a.tlsCipherSuites
    case TLSCurvePreferences => StringOf(v) == a.tlsCurvePreferences
    case _ => true
  }

  lemma FlagCarries(c: Codec, env: Env, a: Args, f: Flag)
    requires !f.CSITimeout? && !f.KubeAPIQPS?
    ensures Carries(c, env, a, f, After(c, env, a, f))
  {
    IntReadsBack(c, a.grpcPort);
    IntReadsBack(c, a.kubeAPIBurst);
  }

  /** The timeout and the rate are accepted and carried exactly if they read back. */
  lemma UnmodelledCarry(c: Codec, env: Env, a: Args)
    ensures ReadsBack(c, a) <==>
              && Accepted(c, env, a, CSITimeout) && Carries(c, env, a, CSITimeout, After(c, env, a, CSITimeout))
              && Accepted(c, env, a, KubeAPIQPS) && Carries(c, env, a, KubeAPIQPS, After(c, env, a, KubeAPIQPS))
  {
  }

  /** The arguments that flags with such values give: those written, but for file
      names from the environment, exactly if the timeout and the rate are carried. */
  lemma ArgsRecovered(c: Codec, env: Env, a: Args, fs: FlagSet)
    requires (forall f :: f in fs) && forall f: Flag :: !f.CSITimeout? && !f.KubeAPIQPS? ==> Carries(c, env, a, f, fs[f])
    ensures RuntimeArgsFromFlags(c, fs) ==
              a.(csiTimeout := IntOf(fs[CSITimeout]),
                 kubeAPIQPS := c.narrow(FloatOf(fs[KubeAPIQPS])),
                 tlsCertFile := if a.tlsCertFile == "" then env.tlsCertPath else a.tlsCertFile,
                 tlsKeyFile := if a.tlsKeyFile == "" then env.tlsKeyPath else a.tlsKeyFile)
  {
  }

  /** The command line gives back the arguments. */
  ghost predicate RoundTrips(c: Codec, env: Env, a: Args, flags: seq<Flag>) {
    var parsed := Parse(c, NewFlagSet(env, c), Words(Settings(c, a, flags)));
    && parsed.Some? && parsed.value.1 == []
    && (forall f :: f in parsed.value.0)
    && RuntimeArgsFromFlags(c, parsed.value.0) == a
  }

  /** No environment variable supplies a file name where the arguments have none. */
  predicate NothingSupplied(env: Env, a: Args) {
    && (a.tlsCertFile == "" ==> env.tlsCertPath == "")
    && (a.tlsKeyFile == "" ==> env.tlsKeyPath == "")
  }

  /** Flags that hold what was written give back the arguments exactly if the
      timeout and the rate are carried and nothing is supplied. */
  lemma ParsedArgs(c: Codec, env: Env, a: Args, fs: FlagSet)
    requires (forall f :: f in fs) && forall f :: HasSetting(f) ==> fs[f] == After(c, env, a, f)
    ensures RuntimeArgsFromFlags(c, fs) == a <==>
              && Carries(c, env, a, CSITimeout, After(c, env, a, CSITimeout))
              && Carries(c, env, a, KubeAPIQPS, After(c, env, a, KubeAPIQPS))
              && NothingSupplied(env, a)
  {
    forall f: Flag | !f.CSITimeout? && !f.KubeAPIQPS? ensures Carries(c, env, a, f, fs[f]) {
      if HasSetting(f) { FlagCarries(c, env, a, f); }
    }
    ArgsRecovered(c, env, a, fs);
  }

  lemma RoundTripOf(c: Codec, env: Env, a: Args, flags: seq<Flag>)
    requires Complete(flags)
    ensures RoundTrips(c, env, a, flags) <==> ReadsBack(c, a) && NothingSupplied(env, a)
  {
    var fs, settings := NewFlagSet(env, c), Settings(c, a, flags);
    SettingsParse(c, env, a, flags);
    SettingsConvert(c, env, a, flags);
    UnmodelledCarry(c, env, a);
    if Convertible(c, fs, settings) {
      var parsed := Parse(c, fs, Words(settings)).value.0;
      forall f | HasSetting(f) ensures parsed[f] == After(c, env, a, f) {
        var k :| 0 <= k < |flags| && flags[k] == f;
      }
      ParsedArgs(c, env, a, parsed);
    }
  }

  /** Writing the arguments and parsing them back gives the same arguments exactly
      if the text forms of the timeout and the rate can be read back, and no
      environment variable supplies a file name where the arguments have none. */
  lemma ArgvRoundTrip(c: Codec, env: Env, a: Args)
    ensures RoundTrips(c, env, a, Written()) <==> ReadsBack(c, a) && NothingSupplied(env, a)
  {
    WrittenOnce();
    forall f ensures HasSetting(f) <==> f in Written() {
      WrittenFlags(f);
    }
    RoundTripOf(c, env, a, Written());
  }

  // ----- the command line in full

  /** Two words for an argument that is not the default. */
  function Pair(isDefault: bool, name: string, text: string): seq<string> {
    if isDefault then [] else ["-" + name, text]
  }

  /** The words for the arguments that are texts with an empty default, ... */
  lemma TextPairs(c: Codec, a: Args)
    ensures Chunk(SettingOf(c, a, Kubeconfig)) == Pair(a.kubeconfig == "", "kubeconfig", a.kubeconfig)
    ensures Chunk(SettingOf(c, a, TLSCert)) == Pair(a.tlsCertFile == "", "tls-cert", a.tlsCertFile)
    ensures Chunk(SettingOf(c, a, TLSKey)) == Pair(a.tlsKeyFile == "", "tls-key", a.tlsKeyFile)
    ensures Chunk(SettingOf(c, a, Audience)) == Pair(a.audience == "", "audience", a.audience)
    ensures Chunk(SettingOf(c, a, TLSMinVersion)) == Pair(a.tlsMinVersion == "", "tls-min-version", a.tlsMinVersion)
    ensures Chunk(SettingOf(c, a, TLSCipherSuites)) == Pair(a.tlsCipherSuites == "", "tls-cipher-suites", a.tlsCipherSuites)
    ensures Chunk(SettingOf(c, a, TLSCurvePreferences)) == Pair(a.tlsCurvePreferences == "", "tls-curve-preferences", a.tlsCurvePreferences)
  {
  }

  /** ... those that are texts with another default, ... */
  lemma AddressPairs(c: Codec, a: Args)
    ensures Chunk(SettingOf(c, a, CSIAddress)) == Pair(a.csiAddress == "/run/csi/socket", "csi-address", a.csiAddress)
    ensures Chunk(SettingOf(c, a, HTTPEndpoint)) == Pair(a.httpEndpoint == ":8080", "http-endpoint", a.httpEndpoint)
    ensures Chunk(SettingOf(c, a, MetricsPath)) == Pair(a.metricsPath == "/metrics", "metrics-path", a.metricsPath)
  {
  }

  /** ... and the numbers. */
  lemma NumberPairs(c: Codec, a: Args)
    ensures Chunk(SettingOf(c, a, CSITimeout)) == Pair(a.csiTimeout == 60_000_000_000, "timeout", c.durationText(a.csiTimeout))
    ensures Chunk(SettingOf(c, a, GRPCPort)) == Pair(a.grpcPort == 50051, "port", Numeral(a.grpcPort as int))
    ensures Chunk(SettingOf(c, a, KubeAPIBurst)) == Pair(a.kubeAPIBurst == 10, "kube-api-burst", Numeral(a.kubeAPIBurst as int))
    ensures Chunk(SettingOf(c, a, KubeAPIQPS)) == Pair(a.kubeAPIQPS == c.narrow(c.five), "kube-api-qps", c.floatText(a.kubeAPIQPS))
  {
  }

  function Concat(chunks: seq<seq<string>>): seq<string> {
    if chunks == [] then [] else chunks[0] + Concat(chunks[1..])
  }

  lemma {:induction false} WordsConcat(settings: seq<Setting>, chunks: seq<seq<string>>)
    requires |settings| == |chunks| && forall i :: 0 <= i < |chunks| ==> Chunk(settings[i]) == chunks[i]
    ensures Words(settings) == Concat(chunks)
  {
    if chunks != [] {
      WordsConcat(settings[1..], chunks[1..]);
    }
  }

  /** All the words, in order, with the names of the flags and the defaults at which
      they are left out. */
  lemma ArgvInFull(c: Codec, a: Args)
    ensures Words(Settings(c, a, Written())) ==
              Concat([
                Pair(a.kubeconfig == "", "kubeconfig", a.kubeconfig),
                Pair(a.csiAddress == "/run/csi/socket", "csi-address", a.csiAddress),
                Pair(a.csiTimeout == 60_000_000_000, "timeout", c.durationText(a.csiTimeout)),
                Pair(a.grpcPort == 50051, "port", Numeral(a.grpcPort as int)),
                Pair(a.tlsCertFile == "", "tls-cert", a.tlsCertFile),
                Pair(a.tlsKeyFile == "", "tls-key", a.tlsKeyFile),
                Pair(a.kubeAPIBurst == 10, "kube-api-burst", Numeral(a.kubeAPIBurst as int)),
                Pair(a.kubeAPIQPS == c.narrow(c.five), "kube-api-qps", c.floatText(a.kubeAPIQPS)),
                Pair(a.httpEndpoint == ":8080", "http-endpoint", a.httpEndpoint),
                Pair(a.metricsPath == "/metrics", "metrics-path", a.metricsPath),
                Pair(a.audience == "", "audience", a.audience),
                Pair(a.tlsMinVersion == "", "tls-min-version", a.tlsMinVersion),
                Pair(a.tlsCipherSuites == "", "tls-cipher-suites", a.tlsCipherSuites),
                Pair(a.tlsCurvePreferences == "", "tls-curve-preferences", a.tlsCurvePreferences)])
  {
    TextPairs(c, a);
    AddressPairs(c, a);
    NumberPairs(c, a);
    var settings := Settings(c, a, Written());
    var chunks := [
      Chunk(SettingOf(c, a, Kubeconfig)), Chunk(SettingOf(c, a, CSIAddress)), Chunk(SettingOf(c, a, CSITimeout)), Chunk(SettingOf(c, a, GRPCPort)),
      Chunk(SettingOf(c, a, TLSCert)), Chunk(SettingOf(c, a, TLSKey)), Chunk(SettingOf(c, a, KubeAPIBurst)), Chunk(SettingOf(c, a, KubeAPIQPS)),
      Chunk(SettingOf(c, a, HTTPEndpoint)), Chunk(SettingOf(c, a, MetricsPath)), Chunk(SettingOf(c, a, Audience)),
      Chunk(SettingOf(c, a, TLSMinVersion)), Chunk(SettingOf(c, a, TLSCipherSuites)), Chunk(SettingOf(c, a, TLSCurvePreferences))];
    WordsConcat(settings, chunks);
  }

  lemma NothingToParse(c: Codec, fs: FlagSet)
    requires forall f :: f in fs
    ensures Parse(c, fs, []) == Some((fs, []))
  {
  }

  /** The values of the flags before anything is parsed: the defaults, and for the two
      files of the certificate what the environment says. */
  lemma DefaultTexts(env: Env, c: Codec)
    ensures
      var fs := NewFlagSet(env, c);
      && fs[CSIAddress] == Text("/run/csi/socket") && fs[HTTPEndpoint] == Text(":8080") && fs[MetricsPath] == Text("/metrics")
      && fs[TLSCert] == Text(env.tlsCertPath) && fs[TLSKey] == Text(env.tlsKeyPath)
      && fs[Kubeconfig] == fs[Audience] == fs[TLSMinVersion] == fs[TLSCipherSuites] == fs[TLSCurvePreferences] == Text("")
  {
  }

  lemma DefaultNumbers(env: Env, c: Codec)
    ensures
      var fs := NewFlagSet(env, c);
      && fs[CSITimeout] == Duration(60_000_000_000) && fs[KubeAPIBurst] == Int(10) && fs[GRPCPort] == Int(50051)
      && fs[KubeAPIQPS] == Float(c.five) && fs[MaxStreamingDurationMin] == Int(10)
      && fs[Version] == Bool(false) && fs[DisableMetrics] == Bool(false)
  {
  }

  /** Without any flag, the arguments are these. */
  lemma NoFlagsParse(c: Codec, env: Env)
    ensures Parse(c, NewFlagSet(env, c), []) == Some((NewFlagSet(env, c), []))
    ensures
      var a := RuntimeArgsFromFlags(c, NewFlagSet(env, c));
      && a.csiAddress == "/run/csi/socket" && a.httpEndpoint == ":8080" && a.metricsPath == "/metrics"
      && a.tlsCertFile == env.tlsCertPath && a.tlsKeyFile == env.tlsKeyPath
      && a.kubeconfig == a.audience == a.tlsMinVersion == a.tlsCipherSuites == a.tlsCurvePreferences == ""
      && a.csiTimeout == 60_000_000_000 && a.kubeAPIBurst == 10 && a.kubeAPIQPS == c.narrow(c.five) && a.grpcPort == 50051
  {
    NothingToParse(c, NewFlagSet(env, c));
    DefaultTexts(env, c);
    DefaultNumbers(env, c);
  }

  /** The flags that are read but never written. */
  lemma OtherFlags()
    ensures Find("version") == Some(Version)
    ensures Find("disable-metrics") == Some(DisableMetrics)
    ensures Find("max-streaming-duration-min") == Some(MaxStreamingDurationMin)
  {
    FindsName(Version);
    FindsName(DisableMetrics);
    FindsName(MaxStreamingDurationMin);
  }
}
