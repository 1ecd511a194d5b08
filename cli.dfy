/**
 * The command line of the plugin (go/main.go): parseArguments, which fills
 * the request from the argument list, and main's dispatch on the action and
 * subaction. The whole invocation is Run: parse, dispatch, and the report
 * of the action taken, given what the cluster answers.
 */
module Cli {
  import opened Wrappers
  import opened Strconv
  import opened Strings
  import Api
  import opened Output
  import opened Params
  import Utils
  import K8s

  // ---------------------------------------------------------------------------
  // Options

  /** The effect of one recognised option on the request. */
  datatype Setting =
    | SetJob(job: string)
    | SetNamespace(namespace: string)
    | SetImage(image: string)
    | SetCommand(words: seq<string>)
    | SetDevice(device: string)
    | SetTtl(ttl: int)
    | SetCompletions(completions: int)
    | SetBackoffLimit(limit: int)
    | SetDryRun
    | SetDebug(debug: int)
    | SetHelp

  /** Why parsing stopped: an unknown option (os.Exit(2)) or a Go panic. */
  datatype ParseError =
    | MissingAction
    | UnknownOption(token: string)
    | MissingValue(option: string)
    | BadNumber(option: string, text: string)

  /** The cases of parseArguments' switch. */
  datatype Opt =
    | JobOpt | NamespaceOpt | ImageOpt | CommandOpt | DeviceOpt
    | TtlOpt | CompletionsOpt | BackoffLimitOpt | DryRunOpt | DebugOpt | HelpOpt

  /** The case of parseArguments' switch a token selects, if any: its case labels, in order. */
  function OptionOf(token: string): Option<Opt> {
    match token
    case "-j" => Some(JobOpt)
    case "--job" => Some(JobOpt)
    case "-n" => Some(NamespaceOpt)
    case "--namespace" => Some(NamespaceOpt)
    case "-i" => Some(ImageOpt)
    case "--image" => Some(ImageOpt)
    case "-c" => Some(CommandOpt)
    case "--command" => Some(CommandOpt)
    case "-d" => Some(DeviceOpt)
    case "--device" => Some(DeviceOpt)
    case "--ttl" => Some(TtlOpt)
    case "--completions" => Some(CompletionsOpt)
    case "--backoff-limit" => Some(BackoffLimitOpt)
    case "--dry-run" => Some(DryRunOpt)
    case "--debug" => Some(DebugOpt)
    case "help" => Some(HelpOpt)
    case "--help" => Some(HelpOpt)
    case "-h" => Some(HelpOpt)
    case _ => None
  }

  /** Each option has a short and a long spelling, and help has three; any other token names no case. */
  lemma Spellings(token: string)
    ensures OptionOf("-j") == OptionOf("--job") == Some(JobOpt)
    ensures OptionOf("-n") == OptionOf("--namespace") == Some(NamespaceOpt)
    ensures OptionOf("-i") == OptionOf("--image") == Some(ImageOpt)
    ensures OptionOf("-c") == OptionOf("--command") == Some(CommandOpt)
    ensures OptionOf("-d") == OptionOf("--device") == Some(DeviceOpt)
    ensures OptionOf("help") == OptionOf("--help") == OptionOf("-h") == Some(HelpOpt)
    ensures OptionOf(token).None? <==>
      token !in ["-j", "--job", "-n", "--namespace", "-i", "--image", "-c", "--command", "-d", "--device",
                 "--ttl", "--completions", "--backoff-limit", "--dry-run", "--debug", "help", "--help", "-h"]
  {
  }

  /** The cases that do not consume the token after them. */
  predicate IsFlag(o: Opt) {
    o == DryRunOpt || o == HelpOpt
  }

  /** The setting of a flag. */
  function FlagSetting(o: Opt): Setting
    requires IsFlag(o)
  {
    if o == DryRunOpt then SetDryRun else SetHelp
  }

  /**
   * The setting of an option that takes a value: the value as given, split
   * on single spaces for the command, or read by strconv.ParseInt at 64 bits
   * for --ttl and --debug and at 32 bits for --completions and
   * --backoff-limit, where a value it rejects is an error.
   */
  function ValueSetting(o: Opt, option: string, value: string): Result<Setting, ParseError>
    requires !IsFlag(o)
  {
    match o
    case JobOpt => Ok(SetJob(value))
    case NamespaceOpt => Ok(SetNamespace(value))
    case ImageOpt => Ok(SetImage(value))
    case CommandOpt => Ok(SetCommand(Split(value, ' ')))
    case DeviceOpt => Ok(SetDevice(value))
    case TtlOpt => NumberSetting(option, value, Bits64, n => SetTtl(n))
    case CompletionsOpt => NumberSetting(option, value, Bits32, n => SetCompletions(n))
    case BackoffLimitOpt => NumberSetting(option, value, Bits32, n => SetBackoffLimit(n))
    case DebugOpt => NumberSetting(option, value, Bits64, n => SetDebug(n))
  }

  /** The setting of a number read by strconv.ParseInt, or the error that makes the source panic. */
  function NumberSetting(option: string, value: string, b: BitSize, setting: int -> Setting): Result<Setting, ParseError> {
    match ParseInt(value, b)
    case None => Err(BadNumber(option, value))
    case Some(n) => Ok(setting(n))
  }

  function Prepend(setting: Setting, rest: Result<seq<Setting>, ParseError>): Result<seq<Setting>, ParseError> {
    match rest
    case Ok(settings) => Ok([setting] + settings)
    case Err(e) => Err(e)
  }

  /** The setting of the option at a position, and how many tokens it takes: one for a flag, two otherwise. */
  datatype Scanned = Scanned(setting: Setting, width: nat)

  /**
   * An option token and the token after it, if any: a flag stands alone, a
   * value option consumes the next token, and a token no case names is an
   * unknown option.
   */
  function ScanToken(token: string, value: Option<string>): (r: Result<Scanned, ParseError>)
    ensures r.Ok? ==> OptionOf(token).Some?
    ensures r.Ok? ==> (r.value.width == 1 <==> IsFlag(OptionOf(token).value))
    ensures r.Ok? ==> r.value.width == 1 || (r.value.width == 2 && value.Some?)
    ensures OptionOf(token).None? ==> r == Err(UnknownOption(token))
  {
    match OptionOf(token)
    case None => Err(UnknownOption(token))
    case Some(o) =>
      if IsFlag(o) then Ok(Scanned(FlagSetting(o), 1))
      else if value.None? then Err(MissingValue(token))
      else
        match ValueSetting(o, token, value.value)
        case Err(e) => Err(e)
        case Ok(setting) => Ok(Scanned(setting, 2))
  }

  /** The token after position i, if there is one. */
  function Following(args: seq<string>, i: nat): Option<string> {
    if i + 1 < |args| then Some(args[i + 1]) else None
  }

  /** The option at position i of the argument list. */
  function Scan(args: seq<string>, i: nat): (r: Result<Scanned, ParseError>)
    requires i < |args|
    ensures r.Ok? ==> i + r.value.width <= |args|
  {
    ScanToken(args[i], Following(args, i))
  }

  /** The settings of the options from position i on, in order, or the first error. */
  function Options(args: seq<string>, i: nat): Result<seq<Setting>, ParseError>
    decreases |args| - i
  {
    if i >= |args| then Ok([])
    else
      match Scan(args, i)
      case Err(e) => Err(e)
      case Ok(scanned) => Prepend(scanned.setting, Options(args, i + scanned.width))
  }

  /**
   * One setting applied to the request: each option writes its field;
   * --completions and --backoff-limit store int32(n), which is n itself for
   * the values ParseInt accepts; --debug stores int32(n) as the
   * TTL-after-finished and sets the restart policy to Never.
   */
  function Apply(p: Parameters, setting: Setting): Parameters {
    match setting
    case SetJob(job) => p.(job := job)
    case SetNamespace(namespace) => p.(namespace := namespace)
    case SetImage(image) => p.(image := image)
    case SetCommand(words) => p.(command := Some(words))
    case SetDevice(device) => p.(device := device)
    case SetTtl(ttl) => p.(ttl := ttl)
    case SetCompletions(n) => p.(completions := Wrap32(n))
    case SetBackoffLimit(n) => p.(backoffLimit := Wrap32(n))
    case SetDryRun => p.(dryRun := true)
    case SetDebug(n) => p.(ttlAfterFinished := Wrap32(n), restartPolicy := Api.RESTART_POLICY_NEVER)
    case SetHelp => p.(help := true)
  }

  /** The settings applied in order. */
  function ApplyAll(p: Parameters, settings: seq<Setting>): Parameters
    decreases |settings|
  {
    if settings == [] then p else ApplyAll(Apply(p, settings[0]), settings[1..])
  }

  /** The action is token 1; token 2 is the subaction for "list" when there are more than two tokens. */
  predicate HasSubaction(args: seq<string>)
    requires |args| >= 2
  {
    args[1] == "list" && |args| > 2
  }

  /** Where option scanning starts: after the action and, if any, the subaction. */
  function ScanStart(args: seq<string>): nat
    requires |args| >= 2
  {
    if HasSubaction(args) then 3 else 2
  }

  /** The request before any option: the defaults, the action and the subaction. */
  function Start(args: seq<string>, config: Option<seq<string>>): Parameters
    requires |args| >= 2
  {
    Defaults(config).(action := args[1], subaction := if HasSubaction(args) then args[2] else "")
  }

  /** The request scanning from position i would make out of p, or the error it meets. */
  function Resume(args: seq<string>, i: nat, p: Parameters): Result<Parameters, ParseError> {
    match Options(args, i)
    case Ok(settings) => Ok(ApplyAll(p, settings))
    case Err(e) => Err(e)
  }

  /** parseArguments over os.Args (token 0 is the program), starting from the defaults and the loaded registry. */
  function Parse(args: seq<string>, config: Option<seq<string>>): Result<Parameters, ParseError> {
    if |args| < 2 then Err(MissingAction)
    else Resume(args, ScanStart(args), Start(args, config))
  }

  /** The result of writing one value option into the request, or its error. */
  function Written(p: Parameters, o: Opt, option: string, value: string): Result<Parameters, ParseError>
    requires !IsFlag(o)
  {
    match ValueSetting(o, option, value)
    case Ok(setting) => Ok(Apply(p, setting))
    case Err(e) => Err(e)
  }

  /** One case of parseArguments' switch for an option that takes a value. */
  method SetValue(p: Parameters, o: Opt, option: string, value: string) returns (r: Result<Parameters, ParseError>)
    requires !IsFlag(o)
    ensures r == Written(p, o, option, value)
  {
    match o
    case JobOpt =>
      r := Ok(p.(job := value));
    case NamespaceOpt =>
      r := Ok(p.(namespace := value));
    case ImageOpt =>
      r := Ok(p.(image := value));
    case CommandOpt =>
      r := Ok(p.(command := Some(Split(value, ' '))));
    case DeviceOpt =>
      r := Ok(p.(device := value));
    case TtlOpt =>
      var n := ParseInt(value, Bits64);
      r := if n.None? then Err(BadNumber(option, value)) else Ok(p.(ttl := n.value));
    case CompletionsOpt =>
      var n := ParseInt(value, Bits32);
      r := if n.None? then Err(BadNumber(option, value)) else Ok(p.(completions := Wrap32(n.value)));
    case BackoffLimitOpt =>
      var n := ParseInt(value, Bits32);
      r := if n.None? then Err(BadNumber(option, value)) else Ok(p.(backoffLimit := Wrap32(n.value)));
    case DebugOpt =>
      var n := ParseInt(value, Bits64);
      r := if n.None? then Err(BadNumber(option, value))
           else Ok(p.(ttlAfterFinished := Wrap32(n.value), restartPolicy := Api.RESTART_POLICY_NEVER));
  }

  /** parseArguments: the action, the subaction, then a cursor over the options. */
  method ParseArguments(args: seq<string>, config: Option<seq<string>>) returns (r: Result<Parameters, ParseError>)
    ensures r == Parse(args, config)
  {
    var p := Defaults(config);
    var i := 1;
    if i >= |args| {
      return Err(MissingAction);
    }
    p := p.(action := args[i]);
    i := i + 1;
    if p.action == "list" && |args| > 2 {
      p := p.(subaction := args[i]);
      i := i + 1;
    }
    assert p == Start(args, config) && i == ScanStart(args);
    r := ScanOptions(args, i, p);
  }

  /** parseArguments' loop: each option at the cursor writes its field, a value option also consumes the next token. */
  method ScanOptions(args: seq<string>, start: nat, p0: Parameters) returns (r: Result<Parameters, ParseError>)
    requires start <= |args|
    ensures r == Resume(args, start, p0)
  {
    var p := p0;
    var i := start;
    while i < |args|
      invariant i <= |args|
      invariant Resume(args, i, p) == Resume(args, start, p0)
      decreases |args| - i
    {
      var token := args[i];
      var option := OptionOf(token);
      if option.None? {
        ScanStep(args, i, p);
        return Err(UnknownOption(token));
      }
      var o := option.value;
      if o == DryRunOpt {
        FlagStep(args, i, p, o);
        p := p.(dryRun := true);
      } else if o == HelpOpt {
        FlagStep(args, i, p, o);
        p := p.(help := true);
      } else {
        if i + 1 >= |args| {
          ScanStep(args, i, p);
          return Err(MissingValue(token));
        }
        var written := SetValue(p, o, token, args[i + 1]);
        ValueStep(args, i, p, o);
        if written.Err? {
          return written;
        }
        p := written.value;
        i := i + 1;
      }
      i := i + 1;
    }
    return Ok(p);
  }

  /** Scanning from position i is scanning the option there, then the rest with its setting applied. */
  lemma ScanStep(args: seq<string>, i: nat, p: Parameters)
    requires i < |args|
    ensures Resume(args, i, p) ==
      match Scan(args, i)
      case Err(e) => Err(e)
      case Ok(scanned) => Resume(args, i + scanned.width, Apply(p, scanned.setting))
  {
    match Scan(args, i)
    case Err(_) =>
    case Ok(scanned) =>
      match Options(args, i + scanned.width)
      case Ok(settings) =>
        assert ([scanned.setting] + settings)[1..] == settings;
      case Err(_) =>
  }

  /** A flag at the cursor applies its setting and moves on by one token. */
  lemma FlagStep(args: seq<string>, i: nat, p: Parameters, o: Opt)
    requires i < |args| && OptionOf(args[i]) == Some(o) && IsFlag(o)
    ensures Resume(args, i, p) == Resume(args, i + 1, Apply(p, FlagSetting(o)))
  {
    ScanStep(args, i, p);
  }

  /** A value option at the cursor, with its value after it, writes its field and moves on by two tokens, or fails. */
  lemma ValueStep(args: seq<string>, i: nat, p: Parameters, o: Opt)
    requires i + 1 < |args| && OptionOf(args[i]) == Some(o) && !IsFlag(o)
    ensures Resume(args, i, p) ==
      match Written(p, o, args[i], args[i + 1])
      case Err(e) => Err(e)
      case Ok(q) => Resume(args, i + 2, q)
  {
    ScanStep(args, i, p);
  }

  // ---------------------------------------------------------------------------
  // What the options change

  /** The fields of the request. */
  datatype Field =
    | ActionField | SubactionField | JobField | NamespaceField | ImageField | CommandField | DeviceField
    | TtlField | TtlAfterFinishedField | ParallelismField | CompletionsField | BackoffLimitField
    | RestartPolicyField | PullPolicyField | DryRunField | ConfigField | HelpField

  /** The value of a field, whatever its type. */
  datatype Value = Str(s: string) | Num(n: int) | Flag(b: bool) | Words(words: Option<seq<string>>)

  function Get(p: Parameters, f: Field): Value {
    match f
    case ActionField => Str(p.action)
    case SubactionField => Str(p.subaction)
    case JobField => Str(p.job)
    case NamespaceField => Str(p.namespace)
    case ImageField => Str(p.image)
    case CommandField => Words(p.command)
    case DeviceField => Str(p.device)
    case TtlField => Num(p.ttl)
    case TtlAfterFinishedField => Num(p.ttlAfterFinished)
    case ParallelismField => Num(p.parallelism)
    case CompletionsField => Num(p.completions)
    case BackoffLimitField => Num(p.backoffLimit)
    case RestartPolicyField => Str(p.restartPolicy)
    case PullPolicyField => Str(p.imagePullPolicy)
    case DryRunField => Flag(p.dryRun)
    case ConfigField => Words(p.config)
    case HelpField => Flag(p.help)
  }

  /** What a setting writes into field f, if it writes it at all. */
  function Effect(setting: Setting, f: Field): Option<Value> {
    match (setting, f)
    case (SetJob(job), JobField) => Some(Str(job))
    case (SetNamespace(namespace), NamespaceField) => Some(Str(namespace))
    case (SetImage(image), ImageField) => Some(Str(image))
    case (SetCommand(words), CommandField) => Some(Words(Some(words)))
    case (SetDevice(device), DeviceField) => Some(Str(device))
    case (SetTtl(ttl), TtlField) => Some(Num(ttl))
    case (SetCompletions(n), CompletionsField) => Some(Num(Wrap32(n)))
    case (SetBackoffLimit(n), BackoffLimitField) => Some(Num(Wrap32(n)))
    case (SetDryRun, DryRunField) => Some(Flag(true))
    case (SetDebug(n), TtlAfterFinishedField) => Some(Num(Wrap32(n)))
    case (SetDebug(_), RestartPolicyField) => Some(Str(Api.RESTART_POLICY_NEVER))
    case (SetHelp, HelpField) => Some(Flag(true))
    case _ => None
  }

  /** What the last of settings that writes field f writes there. */
  function LastEffect(settings: seq<Setting>, f: Field): Option<Value>
    decreases |settings|
  {
    if settings == [] then None
    else
      match Effect(settings[|settings| - 1], f)
      case Some(v) => Some(v)
      case None => LastEffect(settings[..|settings| - 1], f)
  }

  /** Applying a setting changes exactly the fields it writes, to what it writes. */
  lemma ApplyWritesItsFields(p: Parameters, setting: Setting, f: Field)
    ensures Get(Apply(p, setting), f) == Effect(setting, f).GetOr(Get(p, f))
  {
  }

  lemma {:induction false} ApplyAllSnoc(p: Parameters, settings: seq<Setting>, last: Setting)
    ensures ApplyAll(p, settings + [last]) == Apply(ApplyAll(p, settings), last)
    decreases |settings|
  {
    if settings == [] {
      assert ([] + [last])[1..] == [];
    } else {
      assert (settings + [last])[1..] == settings[1..] + [last];
      ApplyAllSnoc(Apply(p, settings[0]), settings[1..], last);
    }
  }

  /**
   * After a run of settings, each field holds what the last setting writing
   * it wrote, and fields no setting writes keep their value: the last
   * occurrence of an option wins.
   */
  lemma {:induction false} LastOccurrenceWins(p: Parameters, settings: seq<Setting>, f: Field)
    ensures Get(ApplyAll(p, settings), f) == LastEffect(settings, f).GetOr(Get(p, f))
    decreases |settings|
  {
    if settings != [] {
      var n := |settings| - 1;
      assert settings == settings[..n] + [settings[n]];
      ApplyAllSnoc(p, settings[..n], settings[n]);
      LastOccurrenceWins(p, settings[..n], f);
      ApplyWritesItsFields(ApplyAll(p, settings[..n]), settings[n], f);
    }
  }

  /**
   * No option changes the action, subaction, parallelism, pull policy or
   * registry; only --debug changes the restart policy, which it sets to Never.
   */
  lemma FieldsNoOptionWrites(setting: Setting)
    ensures Effect(setting, ActionField) == Effect(setting, SubactionField) == None
    ensures Effect(setting, ParallelismField) == Effect(setting, PullPolicyField) == Effect(setting, ConfigField) == None
    ensures Effect(setting, RestartPolicyField).Some? <==> setting.SetDebug?
    ensures Effect(setting, RestartPolicyField).Some? ==> Effect(setting, RestartPolicyField) == Some(Str(Api.RESTART_POLICY_NEVER))
  {
  }

  /** The parsed request has as restart policy Never if some --debug was given, and OnFailure otherwise. */
  lemma {:induction false} RestartPolicyFollowsDebug(p: Parameters, settings: seq<Setting>)
    ensures ApplyAll(p, settings).restartPolicy ==
      if exists k :: 0 <= k < |settings| && settings[k].SetDebug? then Api.RESTART_POLICY_NEVER else p.restartPolicy
    decreases |settings|
  {
    if settings != [] {
      RestartPolicyFollowsDebug(Apply(p, settings[0]), settings[1..]);
      if exists k :: 0 <= k < |settings[1..]| && settings[1..][k].SetDebug? {
        var k :| 0 <= k < |settings[1..]| && settings[1..][k].SetDebug?;
        assert settings[k + 1].SetDebug?;
      }
      if exists k :: 0 <= k < |settings| && settings[k].SetDebug? {
        var k :| 0 <= k < |settings| && settings[k].SetDebug?;
        if k > 0 {
          assert settings[1..][k - 1].SetDebug?;
        }
      }
    }
  }

  // ---------------------------------------------------------------------------
  // Parsing as a whole

  /** The option at a position reads the same after tokens are put in front. */
  lemma ScanShift(prefix: seq<string>, rest: seq<string>, j: nat)
    requires j < |rest|
    ensures Scan(prefix + rest, |prefix| + j) == Scan(rest, j)
  {
    var all := prefix + rest;
    assert all[|prefix| + j] == rest[j];
    assert Following(all, |prefix| + j) == Following(rest, j) by {
      if j + 1 < |rest| {
        assert all[|prefix| + j + 1] == rest[j + 1];
      }
    }
  }

  lemma {:induction false} OptionsShift(prefix: seq<string>, rest: seq<string>, j: nat)
    ensures Options(prefix + rest, |prefix| + j) == Options(rest, j)
    decreases |rest| - j
  {
    if j < |rest| {
      ScanShift(prefix, rest, j);
      if Scan(rest, j).Ok? {
        OptionsShift(prefix, rest, j + Scan(rest, j).value.width);
      }
    }
  }

  /** An option that reads cleanly reads the same with more tokens after the list. */
  lemma ScanAppend(args: seq<string>, i: nat, more: seq<string>)
    requires i < |args| && Scan(args, i).Ok?
    ensures Scan(args + more, i) == Scan(args, i)
  {
    var all := args + more;
    assert all[i] == args[i];
    if i + 1 < |args| {
      assert all[i + 1] == args[i + 1];
      assert Following(all, i) == Following(args, i);
    } else {
      assert Scan(args, i).value.width == 1;
      assert ScanToken(args[i], Following(all, i)) == ScanToken(args[i], None);
    }
  }

  /** The settings scanned so far, followed by those of a later scan, or that scan's error. */
  function Extend(settings: seq<Setting>, rest: Result<seq<Setting>, ParseError>): Result<seq<Setting>, ParseError> {
    match rest
    case Ok(more) => Ok(settings + more)
    case Err(e) => Err(e)
  }

  lemma PrependExtend(setting: Setting, settings: seq<Setting>, rest: Result<seq<Setting>, ParseError>)
    ensures Prepend(setting, Extend(settings, rest)) == Extend([setting] + settings, rest)
  {
    if rest.Ok? {
      assert [setting] + (settings + rest.value) == [setting] + settings + rest.value;
    }
  }

  /** Scanning options that stop cleanly at the end of args, then more tokens, scans those as well. */
  lemma {:induction false} OptionsAppend(args: seq<string>, i: nat, more: seq<string>)
    requires i <= |args| && Options(args, i).Ok?
    ensures Options(args + more, i) == Extend(Options(args, i).value, Options(more, 0))
    decreases |args| - i
  {
    if i == |args| {
      OptionsShift(args, more, 0);
      if Options(more, 0).Ok? {
        assert [] + Options(more, 0).value == Options(more, 0).value;
      }
    } else {
      ScanAppend(args, i, more);
      var scanned := Scan(args, i).value;
      OptionsAppend(args, i + scanned.width, more);
      PrependExtend(scanned.setting, Options(args, i + scanned.width).value, Options(more, 0));
    }
  }

  lemma {:induction false} ApplyAllConcat(p: Parameters, first: seq<Setting>, second: seq<Setting>)
    ensures ApplyAll(p, first + second) == ApplyAll(ApplyAll(p, first), second)
    decreases |first|
  {
    if first != [] {
      assert (first + second)[1..] == first[1..] + second;
      ApplyAllConcat(Apply(p, first[0]), first[1..], second);
    } else {
      assert first + second == second;
    }
  }

  /**
   * Appending a value option and its value to a command line that parses
   * (and whose subaction does not change) gives the same request with that
   * option's setting applied last, or that option's error.
   */
  lemma ParseAppendOption(args: seq<string>, config: Option<seq<string>>, option: string, value: string)
    requires |args| >= 2 && (args[1] == "list" ==> |args| >= 3)
    requires Parse(args, config).Ok? && OptionOf(option).Some? && !IsFlag(OptionOf(option).value)
    ensures Parse(args + [option, value], config) == Written(Parse(args, config).value, OptionOf(option).value, option, value)
  {
    var all := args + [option, value];
    assert all[1] == args[1];
    assert HasSubaction(args) ==> all[2] == args[2];
    assert Start(all, config) == Start(args, config);
    assert ScanStart(all) == ScanStart(args);
    var settings := Options(args, ScanStart(args)).value;
    OptionsAppend(args, ScanStart(args), [option, value]);
    assert [option, value][0] == option && [option, value][1] == value;
    match ValueSetting(OptionOf(option).value, option, value)
    case Ok(setting) =>
      assert Scan([option, value], 0) == Ok(Scanned(setting, 2));
      assert Options([option, value], 2) == Ok([]);
      assert [setting] + [] == [setting];
      ApplyAllConcat(Start(args, config), settings, [setting]);
      assert [setting][1..] == [];
    case Err(e) =>
  }

  /** Appending a flag to a command line that parses applies that flag last. */
  lemma ParseAppendFlag(args: seq<string>, config: Option<seq<string>>, option: string)
    requires |args| >= 2 && (args[1] == "list" ==> |args| >= 3)
    requires Parse(args, config).Ok? && OptionOf(option).Some? && IsFlag(OptionOf(option).value)
    ensures Parse(args + [option], config) == Ok(Apply(Parse(args, config).value, FlagSetting(OptionOf(option).value)))
  {
    var all := args + [option];
    assert all[1] == args[1];
    assert HasSubaction(args) ==> all[2] == args[2];
    assert Start(all, config) == Start(args, config);
    assert ScanStart(all) == ScanStart(args);
    var settings := Options(args, ScanStart(args)).value;
    OptionsAppend(args, ScanStart(args), [option]);
    var setting := FlagSetting(OptionOf(option).value);
    assert Scan([option], 0) == Ok(Scanned(setting, 1));
    assert Options([option], 1) == Ok([]);
    assert [setting] + [] == [setting];
    ApplyAllConcat(Start(args, config), settings, [setting]);
    assert [setting][1..] == [];
  }

  /** Giving --job again replaces the job name and changes nothing else. */
  lemma RepeatedJobOverrides(args: seq<string>, config: Option<seq<string>>, value: string)
    requires |args| >= 2 && (args[1] == "list" ==> |args| >= 3) && Parse(args, config).Ok?
    ensures Parse(args + ["--job", value], config) == Ok(Parse(args, config).value.(job := value))
  {
    assert OptionOf("--job") == Some(JobOpt);
    ParseAppendOption(args, config, "--job", value);
  }

  /**
   * The parsed request has the action in token 1, the subaction in token 2
   * for a "list" with more tokens, and every field as the last option
   * writing it set it, or the default where none did.
   */
  lemma ParsedFields(args: seq<string>, config: Option<seq<string>>, f: Field)
    requires Parse(args, config).Ok?
    ensures |args| >= 2
    ensures Parse(args, config).value.action == args[1]
    ensures Parse(args, config).value.subaction == if args[1] == "list" && |args| > 2 then args[2] else ""
    ensures f != ActionField && f != SubactionField ==>
      Get(Parse(args, config).value, f) ==
        LastEffect(Options(args, ScanStart(args)).value, f).GetOr(Get(Defaults(config), f))
  {
    var settings := Options(args, ScanStart(args)).value;
    var p := Start(args, config);
    LastOccurrenceWins(p, settings, f);
    LastOccurrenceWins(p, settings, ActionField);
    LastOccurrenceWins(p, settings, SubactionField);
    NoOptionWritesAction(settings);
  }

  lemma {:induction false} NoOptionWritesAction(settings: seq<Setting>)
    ensures LastEffect(settings, ActionField) == None && LastEffect(settings, SubactionField) == None
    decreases |settings|
  {
    if settings != [] {
      NoOptionWritesAction(settings[..|settings| - 1]);
    }
  }

  /** With only an action every field keeps its default; without one, parsing fails. */
  lemma ParseActionOnly(config: Option<seq<string>>)
    ensures Parse(["kubectl-job_manager", "list"], config) == Ok(Defaults(config).(action := "list"))
    ensures Parse(["kubectl-job_manager"], config) == Err(MissingAction)
  {
  }

  /**
   * --debug stores its value, wrapped to 32 bits, as the time to live after
   * finishing and sets the restart policy to Never; a value that is not a
   * 64-bit number stops parsing.
   */
  lemma DebugOption(args: seq<string>, config: Option<seq<string>>, value: string)
    requires |args| >= 2 && (args[1] == "list" ==> |args| >= 3) && Parse(args, config).Ok?
    ensures ParseInt(value, Bits64).None? ==> Parse(args + ["--debug", value], config) == Err(BadNumber("--debug", value))
    ensures ParseInt(value, Bits64).Some? ==>
      Parse(args + ["--debug", value], config) ==
        Ok(Parse(args, config).value.(ttlAfterFinished := Wrap32(ParseInt(value, Bits64).value),
                                      restartPolicy := Api.RESTART_POLICY_NEVER))
  {
    DebugSetting(value);
    ParseAppendOption(args, config, "--debug", value);
  }

  lemma DebugSetting(value: string)
    ensures OptionOf("--debug") == Some(DebugOpt)
    ensures ValueSetting(DebugOpt, "--debug", value) ==
      if ParseInt(value, Bits64).None? then Err(BadNumber("--debug", value)) else Ok(SetDebug(ParseInt(value, Bits64).value))
  {
  }

  /** "600" reads as 600. */
  lemma Numeral600()
    ensures ParseInt("600", Bits64) == Some(600)
  {
    DigitsValueSnoc("", '6'); assert "" + ['6'] == "6";
    DigitsValueSnoc("6", '0'); assert "6" + ['0'] == "60";
    DigitsValueSnoc("60", '0'); assert "60" + ['0'] == "600";
  }

  /** --debug 600 keeps finished jobs 600 seconds and never restarts them. */
  lemma ParseDebugExample(config: Option<seq<string>>)
    ensures Parse(["kubectl-job_manager", "create", "--debug", "600"], config)
      == Ok(Defaults(config).(action := "create", ttlAfterFinished := 600, restartPolicy := "Never"))
  {
    var base := ["kubectl-job_manager", "create"];
    ParseActionOnly(config);
    Numeral600();
    DebugOption(base, config, "600");
    assert base + ["--debug", "600"] == ["kubectl-job_manager", "create", "--debug", "600"];
  }

  /** A --debug value beyond 32 bits keeps its low 32 bits: 2^32 + 1 becomes 1. */
  lemma ParseDebugWraps(config: Option<seq<string>>)
    ensures Parse(["kubectl-job_manager", "create", "--debug", "4294967297"], config)
      == Ok(Defaults(config).(action := "create", ttlAfterFinished := 1, restartPolicy := "Never"))
  {
    var base := ["kubectl-job_manager", "create"];
    ParseActionOnly(config);
    Numeral4294967297();
    DebugOption(base, config, "4294967297");
    assert base + ["--debug", "4294967297"] == ["kubectl-job_manager", "create", "--debug", "4294967297"];
  }

  /**
   * --command stores the value split at each single space, and the words
   * joined with single spaces give the value back.
   */
  lemma CommandOption(args: seq<string>, config: Option<seq<string>>, value: string)
    requires |args| >= 2 && (args[1] == "list" ==> |args| >= 3) && Parse(args, config).Ok?
    ensures Parse(args + ["-c", value], config) == Ok(Parse(args, config).value.(command := Some(Split(value, ' '))))
    ensures Join(Split(value, ' '), " ") == value
  {
    assert OptionOf("-c") == Some(CommandOpt);
    ParseAppendOption(args, config, "-c", value);
    JoinSplit(value, ' ');
  }

  /** "echo Hello!" is the command echo with the one argument Hello!. */
  lemma CommandSplitExample()
    ensures Split("echo Hello!", ' ') == ["echo", "Hello!"]
  {
    var words := ["echo", "Hello!"];
    assert Join(words, [' ']) == "echo Hello!";
    assert ' ' !in words[0] && ' ' !in words[1];
    SplitJoin(words, ' ');
  }

  /** The documented dry-run command line parses into the documented request. */
  lemma SampleCommandLine(program: string, config: Option<seq<string>>)
    ensures Parse([program, "create", "-j", "my-job", "-n", "default", "-d", "xilinx.com/fpga", "-i", "busybox",
                   "-c", "echo Hello!", "--dry-run"], config) == Ok(K8s.SampleRequest(config))
  {
    CreateDryRunCommandLine(program, "my-job", "default", "xilinx.com/fpga", "busybox", "echo Hello!", config);
    CommandSplitExample();
  }

  /**
   * The documented dry run, end to end: with the client built, xilinx.com/fpga
   * registered and a server that accepts the job as sent, main prints exactly
   * the preview document and exits 0.
   */
  lemma SampleRun(program: string, cluster: Cluster)
    requires cluster.connect(KubeconfigPath(cluster.home, None)).None?
    requires var job := K8s.SampleJob(Some(["xilinx.com/fpga"]));
      cluster.create(job, Api.CreateOptions(["All"])) == Api.Fetched(job)
    ensures Run([program, "create", "-j", "my-job", "-n", "default", "-d", "xilinx.com/fpga", "-i", "busybox",
                 "-c", "echo Hello!", "--dry-run"], Some(["xilinx.com/fpga"]), cluster)
      == Report([Document(Utils.JobYaml(K8s.SampleJob(Some(["xilinx.com/fpga"])), "xilinx.com/fpga"))], EXIT_OK)
  {
    var args := [program, "create", "-j", "my-job", "-n", "default", "-d", "xilinx.com/fpga", "-i", "busybox",
                 "-c", "echo Hello!", "--dry-run"];
    var config := Some(["xilinx.com/fpga"]);
    assert args[1] == "create";
    NoFlagsFirst(args, config, cluster);
    SampleCommandLine(program, config);
    K8s.SampleDryRun(cluster.create);
  }

  /** A create command line in the documented order, ending in --dry-run, sets the five given fields and the dry run. */
  lemma CreateDryRunCommandLine(program: string, job: string, namespace: string, device: string, image: string, command: string,
                                config: Option<seq<string>>)
    ensures Parse([program, "create", "-j", job, "-n", namespace, "-d", device, "-i", image, "-c", command, "--dry-run"], config)
      == Ok(Defaults(config).(action := "create", job := job, namespace := namespace, device := device, image := image,
                              command := Some(Split(command, ' ')), dryRun := true))
  {
    var a := [program, "create", "-j", job, "-n", namespace, "-d", device, "-i", image, "-c", command, "--dry-run"];
    CreateCommandLine(program, job, namespace, device, image, command, config);
    assert a[..12] == [program, "create", "-j", job, "-n", namespace, "-d", device, "-i", image, "-c", command];
    ParseAppendFlag(a[..12], config, "--dry-run");
    assert a[..12] + ["--dry-run"] == a;
  }

  /** A create command line in the documented order sets exactly the five given fields. */
  lemma CreateCommandLine(program: string, job: string, namespace: string, device: string, image: string, command: string,
                          config: Option<seq<string>>)
    ensures Parse([program, "create", "-j", job, "-n", namespace, "-d", device, "-i", image, "-c", command], config)
      == Ok(Defaults(config).(action := "create", job := job, namespace := namespace, device := device, image := image,
                              command := Some(Split(command, ' '))))
  {
    var a := [program, "create", "-j", job, "-n", namespace, "-d", device, "-i", image, "-c", command];
    CreateContainerLine(program, job, namespace, device, image, config);
    assert a[..10] == [program, "create", "-j", job, "-n", namespace, "-d", device, "-i", image];
    CommandOption(a[..10], config, command);
    assert a[..10] + ["-c", command] == a;
  }

  /** The job, namespace, device and image options of a create command line set those four fields. */
  lemma CreateContainerLine(program: string, job: string, namespace: string, device: string, image: string,
                            config: Option<seq<string>>)
    ensures Parse([program, "create", "-j", job, "-n", namespace, "-d", device, "-i", image], config)
      == Ok(Defaults(config).(action := "create", job := job, namespace := namespace, device := device, image := image))
  {
    var a := [program, "create", "-j", job, "-n", namespace, "-d", device, "-i", image];
    CreateDeviceLine(program, job, namespace, device, config);
    assert a[..8] == [program, "create", "-j", job, "-n", namespace, "-d", device];
    ParseAppendOption(a[..8], config, "-i", image);
    assert a[..8] + ["-i", image] == a;
  }

  /** The job, namespace and device options of a create command line set those three fields. */
  lemma CreateDeviceLine(program: string, job: string, namespace: string, device: string, config: Option<seq<string>>)
    ensures Parse([program, "create", "-j", job, "-n", namespace, "-d", device], config)
      == Ok(Defaults(config).(action := "create", job := job, namespace := namespace, device := device))
  {
    var a := [program, "create", "-j", job, "-n", namespace, "-d", device];
    CreateTargetLine(program, job, namespace, config);
    assert a[..6] == [program, "create", "-j", job, "-n", namespace];
    ParseAppendOption(a[..6], config, "-d", device);
    assert a[..6] + ["-d", device] == a;
  }

  /** The job and namespace options of a create command line set those two fields. */
  lemma CreateTargetLine(program: string, job: string, namespace: string, config: Option<seq<string>>)
    ensures Parse([program, "create", "-j", job, "-n", namespace], config)
      == Ok(Defaults(config).(action := "create", job := job, namespace := namespace))
  {
    var a := [program, "create", "-j", job, "-n", namespace];
    assert Parse(a[..2], config) == Ok(Defaults(config).(action := "create"));
    ParseAppendOption(a[..2], config, "-j", job);
    assert a[..2] + ["-j", job] == a[..4];
    ParseAppendOption(a[..4], config, "-n", namespace);
    assert a[..4] + ["-n", namespace] == a;
  }

  /** An unknown option stops parsing, whatever follows it. */
  lemma ParseUnknownExample(config: Option<seq<string>>)
    ensures Parse(["kubectl-job_manager", "create", "--bogus", "-j", "x"], config) == Err(UnknownOption("--bogus"))
  {
    assert OptionOf("--bogus") == None;
  }

  /** A --ttl that is not a number stops parsing. */
  lemma ParseBadNumberExample(config: Option<seq<string>>)
    ensures Parse(["kubectl-job_manager", "create", "--ttl", "abc"], config) == Err(BadNumber("--ttl", "abc"))
  {
    assert !AllDigits("abc") by { assert !IsDigit("abc"[0]); }
    assert OptionOf("--ttl") == Some(TtlOpt);
    assert ValueSetting(TtlOpt, "--ttl", "abc") == Err(BadNumber("--ttl", "abc"));
  }

  /** A --completions value that does not fit in 32 bits stops parsing. */
  lemma ParseOverflowExample(config: Option<seq<string>>)
    ensures Parse(["kubectl-job_manager", "create", "--completions", "2147483648"], config)
      == Err(BadNumber("--completions", "2147483648"))
  {
    Numeral2147483648();
    ParseIntNarrow("2147483648");
    assert OptionOf("--completions") == Some(CompletionsOpt);
    assert ValueSetting(CompletionsOpt, "--completions", "2147483648") == Err(BadNumber("--completions", "2147483648"));
  }

  lemma Digits42949()
    ensures AllDigits("42949") && DigitsValue("42949") == 42949
  {
    DigitsValueSnoc("", '4'); assert "" + ['4'] == "4";
    DigitsValueSnoc("4", '2'); assert "4" + ['2'] == "42";
    DigitsValueSnoc("42", '9'); assert "42" + ['9'] == "429";
    DigitsValueSnoc("429", '4'); assert "429" + ['4'] == "4294";
    DigitsValueSnoc("4294", '9'); assert "4294" + ['9'] == "42949";
  }

  /** "4294967297" reads as 2^32 + 1. */
  lemma Numeral4294967297()
    ensures ParseInt("4294967297", Bits64) == Some(4294967297)
  {
    Digits42949();
    DigitsValueSnoc("42949", '6'); assert "42949" + ['6'] == "429496";
    DigitsValueSnoc("429496", '7'); assert "429496" + ['7'] == "4294967";
    DigitsValueSnoc("4294967", '2'); assert "4294967" + ['2'] == "42949672";
    DigitsValueSnoc("42949672", '9'); assert "42949672" + ['9'] == "429496729";
    DigitsValueSnoc("429496729", '7'); assert "429496729" + ['7'] == "4294967297";
  }

  lemma Digits21474()
    ensures AllDigits("21474") && DigitsValue("21474") == 21474
  {
    DigitsValueSnoc("", '2'); assert "" + ['2'] == "2";
    DigitsValueSnoc("2", '1'); assert "2" + ['1'] == "21";
    DigitsValueSnoc("21", '4'); assert "21" + ['4'] == "214";
    DigitsValueSnoc("214", '7'); assert "214" + ['7'] == "2147";
    DigitsValueSnoc("2147", '4'); assert "2147" + ['4'] == "21474";
  }

  /** "2147483648" reads as 2^31. */
  lemma Numeral2147483648()
    ensures ParseInt("2147483648", Bits64) == Some(2147483648)
  {
    Digits21474();
    DigitsValueSnoc("21474", '8'); assert "21474" + ['8'] == "214748";
    DigitsValueSnoc("214748", '3'); assert "214748" + ['3'] == "2147483";
    DigitsValueSnoc("2147483", '6'); assert "2147483" + ['6'] == "21474836";
    DigitsValueSnoc("21474836", '4'); assert "21474836" + ['4'] == "214748364";
    DigitsValueSnoc("214748364", '8'); assert "214748364" + ['8'] == "2147483648";
  }

  /** An option whose value is missing stops parsing. */
  lemma ParseMissingValueExample(config: Option<seq<string>>)
    ensures Parse(["kubectl-job_manager", "create", "-j"], config) == Err(MissingValue("-j"))
  {
  }

  // ---------------------------------------------------------------------------
  // Dispatch and the whole run

  const VERSION: string := "0.1.0"

  /** What main does for an action and subaction. */
  datatype Command =
    | RunCreate | RunListDevices | RunListJobs | ShowListHelp | RunDelete
    | ShowVersion | ShowConfig | ShowHelp | ShowHelpAndFail

  /** main's switch on the action, and for "list" on the subaction. */
  function Dispatch(action: string, subaction: string): (c: Command)
    ensures c == ShowHelpAndFail <==> !KnownAction(action)
    ensures c in {RunListDevices, RunListJobs, ShowListHelp} <==> action == "list"
  {
    match action
    case "create" => RunCreate
    case "list" =>
      (match subaction
       case "devices" => RunListDevices
       case "jobs" => RunListJobs
       case _ => ShowListHelp)
    case "delete" => RunDelete
    case "version" => ShowVersion
    case "config" => ShowConfig
    case "" => ShowHelp
    case "help" => ShowHelp
    case "--help" => ShowHelp
    case "-h" => ShowHelp
    case _ => ShowHelpAndFail
  }

  /** The actions main knows. */
  predicate KnownAction(action: string) {
    action in ["create", "list", "delete", "version", "config", "", "help", "--help", "-h"]
  }

  /**
   * The subaction matters only for "list", where anything but "devices" or
   * "jobs" shows list help; the help spellings show help normally; any
   * other action shows help and fails.
   */
  lemma DispatchRules(action: string, subaction: string, other: string)
    ensures action != "list" ==> Dispatch(action, subaction) == Dispatch(action, other)
    ensures action == "list" ==> (Dispatch(action, subaction) == ShowListHelp <==> subaction != "devices" && subaction != "jobs")
    ensures Dispatch(action, subaction) == ShowHelp <==> action in ["", "help", "--help", "-h"]
    ensures Dispatch(action, subaction) == ShowHelpAndFail <==> !KnownAction(action)
  {
  }

  /**
   * The environment of one invocation: the home directory, whether a client
   * can be built from a kubeconfig path (None: it can, Some: the error),
   * the answers the cluster gives, and the clock.
   */
  datatype Cluster = Cluster(
    home: string,
    connect: string -> Option<string>,
    now: int,
    nodes: Api.Fetch<seq<Api.Node>>,
    jobs: Api.Fetch<seq<Api.JobStatus>>,
    create: (Api.Job, Api.CreateOptions) -> Api.Fetch<Api.Job>,
    delete: (string, string, Api.DeleteOptions) -> Option<string>)

  /** The message of a parse error: the unknown option's line, or the panic. */
  function ParseFailure(e: ParseError): Line {
    match e
    case UnknownOption(token) => Text("Unknown option " + token + ".")
    case MissingAction => Panicked("index out of range [1] with length 1")
    case MissingValue(_) => Panicked("index out of range")
    case BadNumber(_, text) => Panicked("strconv.ParseInt: parsing \"" + text + "\"")
  }

  /** What the action of the parsed request prints, given the cluster's answers. */
  function Perform(p: Parameters, cluster: Cluster): (report: Report)
    ensures Dispatch(p.action, p.subaction) in {ShowListHelp, ShowVersion, ShowConfig, ShowHelp} ==> report.exit == EXIT_OK
    ensures Dispatch(p.action, p.subaction) == ShowHelpAndFail ==> report.exit == EXIT_FAILURE
    ensures Dispatch(p.action, p.subaction) == RunDelete ==> report.exit in {EXIT_OK, EXIT_FAILURE}
    ensures report.exit in {EXIT_OK, EXIT_FAILURE, EXIT_USAGE}
  {
    match Dispatch(p.action, p.subaction)
    case RunCreate => K8s.CreateReport(p, cluster.create)
    case RunListDevices => K8s.DeviceUsage(p, cluster.nodes)
    case RunListJobs => K8s.JobUsage(p, cluster.jobs, cluster.now)
    case ShowListHelp => Report([Help(ListHelp)], EXIT_OK)
    case RunDelete => K8s.DeleteReport(p, cluster.delete)
    case ShowVersion => Report([Text(VERSION)], EXIT_OK)
    case ShowConfig => Report([ConfigListing], EXIT_OK)
    case ShowHelp => Report([Help(GeneralHelp)], EXIT_OK)
    case ShowHelpAndFail => Report([Help(GeneralHelp)], EXIT_FAILURE)
  }

  /** parseArguments over the whole of os.Args (exit 2 on a parse error), then the switch. */
  function Proceed(args: seq<string>, config: Option<seq<string>>, cluster: Cluster): (report: Report)
    ensures Parse(args, config).Err? ==> report == Report([ParseFailure(Parse(args, config).error)], EXIT_USAGE)
    ensures report.exit in {EXIT_OK, EXIT_FAILURE, EXIT_USAGE}
  {
    match Parse(args, config)
    case Err(e) => Report([ParseFailure(e)], EXIT_USAGE)
    case Ok(p) => Perform(p, cluster)
  }

  // ---------------------------------------------------------------------------
  // flag.Parse, which main runs over os.Args[1:] before parseArguments

  /** What the flag package makes of one argument, given that -kubeconfig is the only flag defined. */
  datatype FlagToken =
    | NotAFlag
    | EndOfFlags
    | BadSyntax
    | KubeconfigFlag(inline: Option<string>)
    | HelpFlag
    | UndefinedFlag(name: string)

  /** The name of a flag: the text before the first '='. */
  function FlagName(name: string): (n: string)
    ensures |n| <= |name| && n == name[..|n|] && '=' !in n
    decreases |name|
  {
    if name == [] || name[0] == '=' then [] else [name[0]] + FlagName(name[1..])
  }

  /** The value given with "=" inside a flag, if any: the text after the first '='. */
  function InlineValue(name: string): Option<string>
    decreases |name|
  {
    if name == [] then None else if name[0] == '=' then Some(name[1..]) else InlineValue(name[1..])
  }

  /** The text after the one or two dashes of a flag. */
  function DashName(s: string): string
    requires |s| >= 2 && s[0] == '-'
  {
    if s[1] == '-' then s[2..] else s[1..]
  }

  /**
   * One argument as the flag package reads it: "-" or a word without a
   * leading '-' ends the flags before it, "--" ends them after it; one or two
   * dashes then a name; "-h" and "-help" ask for usage; any name but
   * kubeconfig is not defined.
   */
  function ClassifyFlag(s: string): FlagToken {
    if |s| < 2 || s[0] != '-' then NotAFlag
    else if s == "--" then EndOfFlags
    else
      var name := DashName(s);
      if name == [] || name[0] == '-' || name[0] == '=' then BadSyntax
      else if FlagName(name) == "kubeconfig" then KubeconfigFlag(InlineValue(name))
      else if FlagName(name) == "help" || FlagName(name) == "h" then HelpFlag
      else UndefinedFlag(FlagName(name))
  }

  /** How flag.Parse ends: the -kubeconfig value last given, a usage request (exit 0), or an error (exit 2). */
  datatype FlagOutcome = FlagsParsed(kubeconfig: Option<string>) | UsageRequested | FlagError(message: string)

  /** flag.Parse over the arguments after the program name, -kubeconfig's value taken after "=" or from the next argument. */
  function ParseFlags(rest: seq<string>, kubeconfig: Option<string>): FlagOutcome
    decreases |rest|
  {
    if rest == [] then FlagsParsed(kubeconfig)
    else
      match ClassifyFlag(rest[0])
      case NotAFlag => FlagsParsed(kubeconfig)
      case EndOfFlags => FlagsParsed(kubeconfig)
      case BadSyntax => FlagError("bad flag syntax: " + rest[0])
      case HelpFlag => UsageRequested
      case UndefinedFlag(name) => FlagError("flag provided but not defined: -" + name)
      case KubeconfigFlag(inline) =>
        if inline.Some? then ParseFlags(rest[1..], inline)
        else if |rest| < 2 then FlagError("flag needs an argument: -kubeconfig")
        else ParseFlags(rest[2..], Some(rest[1]))
  }

  /** os.Args[1:]. */
  function Arguments(args: seq<string>): seq<string> {
    if args == [] then [] else args[1..]
  }

  /** The kubeconfig path: the flag's value, else ~/.kube/config when there is a home directory, else "". */
  function KubeconfigPath(home: string, kubeconfig: Option<string>): string {
    match kubeconfig
    case Some(path) => path
    case None => if home != "" then home + "/.kube/config" else ""
  }

  /** The outcome of flag.Parse for a whole command line. */
  function Flags(args: seq<string>): FlagOutcome {
    ParseFlags(Arguments(args), None)
  }

  /**
   * One invocation of main: flag.Parse (usage exits 0, an error exits 2),
   * then the client (a failure exits 1), then parseArguments and the switch.
   */
  function Run(args: seq<string>, config: Option<seq<string>>, cluster: Cluster): (report: Report)
    ensures report.exit in {EXIT_OK, EXIT_FAILURE, EXIT_USAGE}
    ensures Flags(args) == UsageRequested ==> report == Report([Help(FlagDefaults)], EXIT_OK)
    ensures Flags(args).FlagError? ==> report == Report([Failure(Flags(args).message), Help(FlagDefaults)], EXIT_USAGE)
    ensures Flags(args).FlagsParsed? ==>
      report == match cluster.connect(KubeconfigPath(cluster.home, Flags(args).kubeconfig))
                case Some(error) => Report([Failure(error)], EXIT_FAILURE)
                case None => Proceed(args, config, cluster)
  {
    match Flags(args)
    case UsageRequested => Report([Help(FlagDefaults)], EXIT_OK)
    case FlagError(message) => Report([Failure(message), Help(FlagDefaults)], EXIT_USAGE)
    case FlagsParsed(kubeconfig) =>
      match cluster.connect(KubeconfigPath(cluster.home, kubeconfig))
      case Some(error) => Report([Failure(error)], EXIT_FAILURE)
      case None => Proceed(args, config, cluster)
  }

  /** main: flag.Parse, the client, parseArguments, then the switch on the action. */
  method Invoke(args: seq<string>, config: Option<seq<string>>, cluster: Cluster) returns (report: Report)
    ensures report == Run(args, config, cluster)
  {
    var flags := Flags(args);
    if flags.UsageRequested? {
      return Report([Help(FlagDefaults)], EXIT_OK);
    } else if flags.FlagError? {
      return Report([Failure(flags.message), Help(FlagDefaults)], EXIT_USAGE);
    }
    var failure := cluster.connect(KubeconfigPath(cluster.home, flags.kubeconfig));
    if failure.Some? {
      return Report([Failure(failure.value)], EXIT_FAILURE);
    }
    var parsed := ParseArguments(args, config);
    if parsed.Err? {
      return Report([ParseFailure(parsed.error)], EXIT_USAGE);
    }
    report := PerformAction(parsed.value, cluster);
  }

  /** main's switch on the action, and for "list" on the subaction. */
  method PerformAction(p: Parameters, cluster: Cluster) returns (report: Report)
    ensures report == Perform(p, cluster)
  {
    if p.action == "create" {
      report := K8s.CreateJob(p, cluster.create);
    } else if p.action == "list" {
      report := PerformList(p, cluster);
    } else if p.action == "delete" {
      report := K8s.DeleteReport(p, cluster.delete);
    } else if p.action == "version" {
      report := Report([Text(VERSION)], EXIT_OK);
    } else if p.action == "config" {
      report := Report([ConfigListing], EXIT_OK);
    } else if p.action == "" || p.action == "help" || p.action == "--help" || p.action == "-h" {
      report := Report([Help(GeneralHelp)], EXIT_OK);
    } else {
      report := Report([Help(GeneralHelp)], EXIT_FAILURE);
    }
  }

  /** The "list" case of main's switch. */
  method PerformList(p: Parameters, cluster: Cluster) returns (report: Report)
    requires p.action == "list"
    ensures report == Perform(p, cluster)
  {
    if p.subaction == "devices" {
      report := K8s.ListDevices(p, cluster.nodes);
    } else if p.subaction == "jobs" {
      report := K8s.ListJobs(p, cluster.jobs, cluster.now);
    } else {
      report := Report([Help(ListHelp)], EXIT_OK);
    }
  }

  /**
   * An invocation whose flags parse and whose client is built, but whose
   * arguments do not parse, exits with status 2 and asks the cluster nothing.
   */
  lemma ParseFailureExits(args: seq<string>, config: Option<seq<string>>, cluster: Cluster, other: Cluster)
    requires Parse(args, config).Err? && Flags(args).FlagsParsed?
    requires cluster.connect(KubeconfigPath(cluster.home, Flags(args).kubeconfig)).None?
    requires other.home == cluster.home
    requires other.connect(KubeconfigPath(cluster.home, Flags(args).kubeconfig)).None?
    ensures Run(args, config, cluster).exit == EXIT_USAGE
    ensures Run(args, config, cluster) == Run(args, config, other)
  {
  }

  /** A first argument that is not a flag leaves the rest to parseArguments, with the default kubeconfig. */
  lemma NoFlagsFirst(args: seq<string>, config: Option<seq<string>>, cluster: Cluster)
    requires |args| < 2 || |args[1]| < 2 || args[1][0] != '-'
    ensures Flags(args) == FlagsParsed(None)
    ensures cluster.connect(KubeconfigPath(cluster.home, None)).None? ==> Run(args, config, cluster) == Proceed(args, config, cluster)
  {
  }

  /**
   * "-h", "-help" and "--help" as the first argument ask the flag package
   * for its usage, which exits 0: the switch's "--help" and "-h" cases are
   * never reached.
   */
  lemma HelpFlagsShowUsage(args: seq<string>)
    requires |args| >= 2 && args[1] in ["-h", "-help", "--help"]
    ensures Flags(args) == UsageRequested
  {
    assert Arguments(args)[0] == args[1];
    if args[1] == "-h" {
      assert DashName("-h") == "h";
      FlagNameWhole("h");
    } else if args[1] == "-help" {
      assert DashName("-help") == "help";
      FlagNameWhole("help");
    } else {
      assert DashName("--help") == "help";
      FlagNameWhole("help");
    }
  }

  /** A dashed first argument naming a flag other than kubeconfig, help or h stops the run with exit 2. */
  lemma UndefinedFlagFirst(args: seq<string>)
    requires |args| >= 2 && |args[1]| >= 2 && args[1][0] == '-' && args[1] != "--"
    requires DashName(args[1]) != [] && DashName(args[1])[0] != '-' && DashName(args[1])[0] != '='
    requires FlagName(DashName(args[1])) !in ["kubeconfig", "help", "h"]
    ensures Flags(args) == FlagError("flag provided but not defined: -" + FlagName(DashName(args[1])))
    ensures '=' !in DashName(args[1]) ==> Flags(args) == FlagError("flag provided but not defined: -" + DashName(args[1]))
  {
    assert Arguments(args)[0] == args[1];
    if '=' !in DashName(args[1]) {
      FlagNameWhole(DashName(args[1]));
    }
  }

  /** A value given inline, as in "-j=5", does not change the error: the flag is still -j. */
  lemma InlineUndefinedExample(args: seq<string>)
    requires |args| >= 2 && args[1] == "-j=5"
    ensures Flags(args) == FlagError("flag provided but not defined: -j")
  {
    assert DashName(args[1]) == "j=5";
    assert FlagName("j=5") == "j";
    UndefinedFlagFirst(args);
  }

  /**
   * A lone "-" or "--" first is no flag: with the client built it reaches
   * parseArguments as the action, which main does not know, so once the
   * rest parses the run shows help and exits 1.
   */
  lemma DashActionFirst(args: seq<string>, config: Option<seq<string>>, cluster: Cluster)
    requires |args| >= 2 && args[1] in ["-", "--"]
    requires cluster.connect(KubeconfigPath(cluster.home, None)).None?
    ensures Flags(args) == FlagsParsed(None)
    ensures Parse(args, config).Ok? ==> Run(args, config, cluster) == Report([Help(GeneralHelp)], EXIT_FAILURE)
    ensures |args| == 2 ==> Parse(args, config).Ok?
  {
    DashNoFlag(args);
    if Parse(args, config).Ok? {
      ParsedFields(args, config, ActionField);
      assert !KnownAction(args[1]);
    }
  }

  /** A lone "-" or "--" first leaves flag.Parse with nothing to set. */
  lemma DashNoFlag(args: seq<string>)
    requires |args| >= 2 && args[1] in ["-", "--"]
    ensures Flags(args) == FlagsParsed(None)
  {
    assert Arguments(args)[0] == args[1];
    if args[1] == "--" {
      assert ClassifyFlag(args[1]) == EndOfFlags;
    } else {
      assert ClassifyFlag(args[1]) == NotAFlag;
    }
  }

  /**
   * Every option of parseArguments but the help spellings is a dashed name
   * the flag package does not define, so given before the action it stops
   * the run with exit 2.
   */
  lemma OptionsAreUndefinedFlags(token: string)
    requires OptionOf(token).Some? && token !in ["help", "--help", "-h"]
    ensures |token| >= 2 && token[0] == '-' && token != "--"
    ensures DashName(token) != [] && DashName(token)[0] != '-' && '=' !in DashName(token)
    ensures DashName(token) !in ["kubeconfig", "help", "h"]
  {
    Spellings(token);
    if token in ["-j", "-n", "-i", "-c", "-d"] {
      ShortOptionsUndefined(token);
    } else if token in ["--job", "--namespace", "--image", "--command", "--device"] {
      NameOptionsUndefined(token);
    } else {
      NumberOptionsUndefined(token);
    }
  }

  /** The short spellings of the value options. */
  lemma ShortOptionsUndefined(token: string)
    requires token in ["-j", "-n", "-i", "-c", "-d"]
    ensures |token| >= 2 && token[0] == '-' && token != "--"
    ensures DashName(token) != [] && DashName(token)[0] != '-' && '=' !in DashName(token)
    ensures DashName(token) !in ["kubeconfig", "help", "h"]
  {
    if token == "-j" {
      assert DashName("-j") == "j";
    } else if token == "-n" {
      assert DashName("-n") == "n";
    } else if token == "-i" {
      assert DashName("-i") == "i";
    } else if token == "-c" {
      assert DashName("-c") == "c";
    } else if token == "-d" {
      assert DashName("-d") == "d";
    }
  }

  /** The long spellings of the string options. */
  lemma NameOptionsUndefined(token: string)
    requires token in ["--job", "--namespace", "--image", "--command", "--device"]
    ensures |token| >= 2 && token[0] == '-' && token != "--"
    ensures DashName(token) != [] && DashName(token)[0] != '-' && '=' !in DashName(token)
    ensures DashName(token) !in ["kubeconfig", "help", "h"]
  {
    if token == "--job" {
      assert DashName("--job") == "job";
    } else if token == "--namespace" {
      assert DashName("--namespace") == "namespace";
    } else if token == "--image" {
      assert DashName("--image") == "image";
    } else if token == "--command" {
      assert DashName("--command") == "command";
    } else if token == "--device" {
      assert DashName("--device") == "device";
    }
  }

  /** The options that take a number, and --dry-run. */
  lemma NumberOptionsUndefined(token: string)
    requires token in ["--ttl", "--completions", "--backoff-limit", "--dry-run", "--debug"]
    ensures |token| >= 2 && token[0] == '-' && token != "--"
    ensures DashName(token) != [] && DashName(token)[0] != '-' && '=' !in DashName(token)
    ensures DashName(token) !in ["kubeconfig", "help", "h"]
  {
    if token == "--ttl" {
      assert DashName("--ttl") == "ttl";
    } else if token == "--completions" {
      assert DashName("--completions") == "completions";
    } else if token == "--backoff-limit" {
      assert DashName("--backoff-limit") == "backoff-limit";
    } else if token == "--dry-run" {
      assert DashName("--dry-run") == "dry-run";
    } else if token == "--debug" {
      assert DashName("--debug") == "debug";
    }
  }

  /** "-kubeconfig path" as the first arguments, before a word that is not a flag, sets the kubeconfig. */
  lemma KubeconfigFlagFirst(args: seq<string>)
    requires |args| >= 4 && args[1] == "-kubeconfig" && (|args[3]| < 2 || args[3][0] != '-')
    ensures Flags(args) == FlagsParsed(Some(args[2]))
  {
    assert Arguments(args)[0] == "-kubeconfig";
    assert DashName("-kubeconfig") == "kubeconfig";
    FlagNameWhole("kubeconfig");
    InlineValueNone("kubeconfig");
    assert ClassifyFlag("-kubeconfig") == KubeconfigFlag(None);
    var rest := Arguments(args);
    assert rest[0] == "-kubeconfig" && rest[1] == args[2];
    assert ParseFlags(rest, None) == ParseFlags(rest[2..], Some(args[2]));
    assert rest[2..][0] == args[3] && ClassifyFlag(args[3]) == NotAFlag;
  }

  /** parseArguments reads os.Args whole: a leading "-kubeconfig" is the action, and its path an unknown option. */
  lemma KubeconfigFirstParse(args: seq<string>, config: Option<seq<string>>)
    requires |args| >= 3 && args[1] == "-kubeconfig" && OptionOf(args[2]).None?
    ensures Parse(args, config) == Err(UnknownOption(args[2]))
  {
    assert ScanStart(args) == 2;
    ScanStep(args, 2, Start(args, config));
  }

  /**
   * A working -kubeconfig before the action stops the run with exit 2:
   * the flag package takes the path, but parseArguments then meets the path
   * as an unknown option.
   */
  lemma KubeconfigFirst(args: seq<string>, config: Option<seq<string>>, cluster: Cluster)
    requires |args| >= 4 && args[1] == "-kubeconfig" && (|args[3]| < 2 || args[3][0] != '-')
    requires OptionOf(args[2]).None? && cluster.connect(args[2]).None?
    ensures Run(args, config, cluster) == Report([Text("Unknown option " + args[2] + ".")], EXIT_USAGE)
  {
    KubeconfigFlagFirst(args);
    KubeconfigFirstParse(args, config);
  }

  /** A name without '=' is its own flag name. */
  lemma {:induction false} FlagNameWhole(name: string)
    requires '=' !in name
    ensures FlagName(name) == name
    decreases |name|
  {
    if name != [] {
      FlagNameWhole(name[1..]);
    }
  }

  /** A name without '=' carries no inline value. */
  lemma {:induction false} InlineValueNone(name: string)
    requires '=' !in name
    ensures InlineValue(name) == None
    decreases |name|
  {
    if name != [] {
      InlineValueNone(name[1..]);
    }
  }
}
