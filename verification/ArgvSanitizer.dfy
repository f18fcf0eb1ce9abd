/** The argv sanitiser of src/agentic_pr_dash/dispatch_telemetry.py: one pass that decides what a recorded
    command line may show and which model, sandbox and approval policy it asked for. */
module ArgvSanitizer {
  import opened Wrappers

  datatype Provider = Codex | OpenCode | Claude
  datatype Setting = Model | Profile | Sandbox | Approval | Root | LocalProvider | Effort | ProviderName

  /** What the value of an option is for: it decides a setting, is a configuration assignment, is never
      shown, or is only carried along. */
  datatype Role = Sets(setting: Setting) | Configures | Hidden | Plain

  datatype Source = Unavailable | ProfileFlag | ConfigOverride | ExplicitFlag

  /** The switches the pass looks for. */
  datatype SwitchKind = Bypass | FullAuto | Oss | IgnoreUserConfig

  /** How the TOML reader answers: a string, some other value, or an error. */
  datatype Toml = Text(text: string) | OtherValue | Malformed
  type Reader = string -> Toml

  /** The option tables of one provider. */
  datatype Table = Table(separate: map<string, Role>, attached: map<string, Role>, equals: map<string, Role>,
                         switches: map<string, SwitchKind>, subcommands: set<string>, keys: map<string, Setting>)

  const END := "--"
  const PAYLOAD := "<redacted:payload>"
  const OPTION := "<redacted:option>"
  const CONFIG := "<redacted:config>"
  const DANGER := "danger-full-access"
  const WORKSPACE := "workspace-write"
  const NEVER := "never"
  const MAX_ARG_COUNT := 128
  const MAX_STRING_LENGTH := 1024
  const TRUNCATED := "<truncated>"

  const EQUALS: map<string, Role> := map[
    "--ask-for-approval" := Sets(Approval), "--config" := Configures, "--cd" := Sets(Root),
    "--local-provider" := Sets(LocalProvider), "--model" := Sets(Model), "--profile" := Sets(Profile),
    "--sandbox" := Sets(Sandbox)]

  const SWITCHES: map<string, SwitchKind> := map[
    "--dangerously-bypass-approvals-and-sandbox" := Bypass, "--yolo" := Bypass, "--full-auto" := FullAuto,
    "--oss" := Oss, "--ignore-user-config" := IgnoreUserConfig]

  const KEYS: map<string, Setting> := map[
    "approval_policy" := Approval, "model" := Model, "model_provider" := ProviderName,
    "model_reasoning_effort" := Effort, "sandbox_mode" := Sandbox]

  const CODEX_ATTACHED: map<string, Role> := map[
    "-C" := Sets(Root), "-a" := Sets(Approval), "-c" := Configures, "-i" := Hidden, "-m" := Sets(Model),
    "-o" := Hidden, "-p" := Sets(Profile), "-s" := Sets(Sandbox)]

  const CODEX_OTHER: map<string, Role> := map[
    "--add-dir" := Plain, "--disable" := Plain, "--enable" := Plain, "--image" := Hidden,
    "--output-last-message" := Hidden, "--remote" := Hidden]

  const CODEX_LONG: map<string, Role> := EQUALS + CODEX_OTHER

  function TableOf(provider: Provider): Table {
    match provider
    case Codex => Table(CODEX_LONG + CODEX_ATTACHED, CODEX_ATTACHED, EQUALS, SWITCHES, {"exec", "e"}, KEYS)
    case OpenCode => SessionTable(Hidden)
    case Claude => SessionTable(Plain)
  }

  const SESSION_LONG: map<string, Role> := map["--model" := Sets(Model), "--session" := Hidden]

  function SessionShort(session: Role): map<string, Role> {
    map["-m" := Sets(Model), "-s" := session]
  }

  /** Only the short form of --session is treated differently: it is hidden for one provider, shown for the other. */
  function SessionTable(session: Role): Table {
    Table(SESSION_LONG + SessionShort(session), SessionShort(session), EQUALS, SWITCHES, {"run"}, KEYS)
  }

  function DefaultName(provider: Provider): Option<string> {
    match provider
    case Codex => Some("openai")
    case OpenCode => None
    case Claude => Some("anthropic")
  }

  // ---------------------------------------------------------------- strings

  predicate Dash(token: string) {
    |token| > 0 && token[0] == '-'
  }

  /** The position of the first `c`, or the length. */
  function Find(s: string, c: char): (i: nat)
    ensures i <= |s| && (i < |s| ==> s[i] == c) && c !in s[..i]
  {
    if s == [] then 0 else if s[0] == c then 0 else
      var i := Find(s[1..], c);
      assert s[..i + 1] == [s[0]] + s[1..][..i];
      i + 1
  }

  function Truncate(s: string): string {
    if |s| <= MAX_STRING_LENGTH then s else s[..MAX_STRING_LENGTH - |TRUNCATED|] + TRUNCATED
  }

  function TruncateAll(s: Option<string>): Option<string> {
    if s.Some? then Some(Truncate(s.value)) else None
  }

  function WithoutEquals(s: string): string {
    if |s| > 0 && s[0] == '=' then s[1..] else s
  }

  predicate Space(c: char) {
    c == ' ' || '\t' <= c <= '\r' || '\U{1C}' <= c <= '\U{1F}'
  }

  function Strip(s: string): string {
    if s == [] then s
    else if Space(s[0]) then Strip(s[1..])
    else if Space(s[|s| - 1]) then Strip(s[..|s| - 1])
    else s
  }

  predicate Bare(s: string) {
    && s != []
    && forall i :: 0 <= i < |s| ==>
         'A' <= s[i] <= 'Z' || 'a' <= s[i] <= 'z' || '0' <= s[i] <= '9' || s[i] in "_.+/-"
  }

  // ---------------------------------------------------------------- configuration assignments

  /** _safe_config_assignment: the key and value of an accepted assignment. */
  function Assignment(value: string, t: Table, toml: Reader): Option<(string, string)> {
    var i := Find(value, '=');
    if i == |value| then None
    else
      var key, raw := Strip(value[..i]), value[i + 1..];
      if key !in t.keys then None
      else
        match toml(raw)
        case Text(text) => Some((key, text))
        case OtherValue => None
        case Malformed => if Bare(Strip(raw)) then Some((key, Strip(raw))) else None
  }

  /** _safe_option_value */
  function SafeValue(role: Role, value: string, t: Table, toml: Reader): string {
    match role
    case Hidden => OPTION
    case Configures =>
      var a := Assignment(value, t, toml);
      if a.Some? then a.value.0 + "=" + a.value.1 else CONFIG
    case Sets(_) => value
    case Plain => value
  }

  // ---------------------------------------------------------------- one token

  datatype Shape =
    | Attached(role: Role, option: string, value: string)
    | Equals(role: Role, option: string, value: string)
    | Opaque(option: string)
    | Separate(role: Role, option: string, value: string)
    | Switch
    | Word

  /** The first position after the executable that holds a double dash, or the length. */
  function Stop(argv: seq<string>, j: nat): (stop: nat)
    requires j <= |argv|
    ensures j <= stop <= |argv| && (stop < |argv| ==> argv[stop] == END)
    ensures forall k :: j <= k < stop ==> argv[k] != END
    decreases |argv| - j
  {
    if j == |argv| || argv[j] == END then j else Stop(argv, j + 1)
  }

  /** How the token at a position reads when no option before it took it as its value. */
  function ShapeAt(argv: seq<string>, j: nat, t: Table): Shape
    requires j < |argv|
  {
    var token := argv[j];
    var eq := Find(token, '=');
    if |token| > 2 && token[..2] in t.attached then
      Attached(t.attached[token[..2]], token[..2], WithoutEquals(token[2..]))
    else if eq < |token| && token[..eq] in t.equals then
      Equals(t.equals[token[..eq]], token[..eq], token[eq + 1..])
    else if eq < |token| && Dash(token) then Opaque(token[..eq])
    else if token in t.separate && j + 1 < |argv| && !Dash(argv[j + 1]) then
      Separate(t.separate[token], token, argv[j + 1])
    else if Dash(token) then Switch
    else Word
  }

  /** The token before this one takes it as its value. */
  predicate Consumed(argv: seq<string>, j: nat, t: Table)
    requires j < |argv|
  {
    j >= 2 && argv[j - 1] in t.separate && !Dash(argv[j])
  }

  /** What makes the pass readable token by token: an option that takes a value, and a switch the pass
      looks for, is never itself a value, never the double dash, and reads as nothing else. */
  ghost predicate Sane(t: Table) {
    && (forall o :: o in t.separate ==> Distinct(o, t))
    && (forall o :: o in t.switches ==> Distinct(o, t) && o !in t.separate)
    && (forall o :: o in t.attached || o in t.equals ==> Dash(o))
  }

  /** The switches the pass looks for are written out in full, so that none is the tail of a short one. */
  ghost predicate SpelledOut(t: Table) {
    forall o :: o in t.switches ==> |o| > 2 && o[1] == '-'
  }

  predicate Distinct(o: string, t: Table) {
    Dash(o) && o != END && '=' !in o && (|o| > 2 ==> o[..2] !in t.attached)
  }

  // ---------------------------------------------------------------- what is shown

  /** A token before the double dash that reads as a subcommand. */
  predicate Subcommand(argv: seq<string>, j: nat, t: Table)
    requires j < |argv|
  {
    j >= 1 && !Consumed(argv, j, t) && ShapeAt(argv, j, t).Word? && argv[j] in t.subcommands
  }

  predicate SubcommandBefore(argv: seq<string>, n: nat, t: Table)
    requires n <= |argv|
  {
    n > 0 && (Subcommand(argv, n - 1, t) || SubcommandBefore(argv, n - 1, t))
  }

  lemma {:induction false} SubcommandBeforeMeans(argv: seq<string>, n: nat, t: Table)
    requires n <= |argv|
    ensures SubcommandBefore(argv, n, t) <==> exists k :: 0 <= k < n && Subcommand(argv, k, t)
  {
    if n > 0 {
      SubcommandBeforeMeans(argv, n - 1, t);
    }
  }

  function ShownSwitch(token: string): string {
    Truncate(if |token| > 2 && token[1] != '-' then token[..2] + OPTION else token)
  }

  /** What the sanitised list holds at a position before the double dash. */
  function ShownAt(argv: seq<string>, j: nat, t: Table, toml: Reader): string
    requires 1 <= j < |argv|
  {
    if Consumed(argv, j, t) then Truncate(SafeValue(t.separate[argv[j - 1]], argv[j], t, toml))
    else
      match ShapeAt(argv, j, t)
      case Attached(role, option, value) => Truncate(option + SafeValue(role, value, t, toml))
      case Equals(role, option, value) =>
        Truncate(if role.Configures? then option + "=" + SafeValue(role, value, t, toml) else argv[j])
      case Opaque(option) => option + "=" + OPTION
      case Separate(_, option, _) => option
      case Switch => ShownSwitch(argv[j])
      case Word => if argv[j] in t.subcommands && !SubcommandBefore(argv, j, t) then argv[j] else PAYLOAD
  }

  function Shown(argv: seq<string>, t: Table, toml: Reader): (shown: seq<string>)
    requires |argv| > 0
    ensures |shown| == |argv|
  {
    var stop := Stop(argv, 1);
    seq(|argv|, j requires 0 <= j < |argv| =>
      if j == 0 || j == stop then argv[j] else if j < stop then ShownAt(argv, j, t, toml) else PAYLOAD)
  }

  function Decimal(n: nat): string {
    var digit := ['0' + (n % 10) as char];
    if n < 10 then digit else Decimal(n / 10) + digit
  }

  function Bounded(shown: seq<string>): seq<string> {
    if |shown| <= MAX_ARG_COUNT then shown
    else shown[..MAX_ARG_COUNT] + ["<truncated:" + Decimal(|shown| - MAX_ARG_COUNT) + "-args>"]
  }

  // ---------------------------------------------------------------- what is asked for

  /** Who decides a setting: a flag, or an accepted configuration assignment. */
  datatype Way = Way(setting: Setting, byFlag: bool)
  datatype Said = Said(way: Way, value: string)

  function SaidBy(role: Role, value: string, t: Table, toml: Reader): Option<Said> {
    match role
    case Sets(setting) => Some(Said(Way(setting, true), value))
    case Configures =>
      var a := Assignment(value, t, toml);
      if a.Some? && a.value.0 in t.keys then Some(Said(Way(t.keys[a.value.0], false), a.value.1)) else None
    case Hidden => None
    case Plain => None
  }

  function SaidAt(argv: seq<string>, j: nat, t: Table, toml: Reader): Option<Said>
    requires 1 <= j < |argv|
  {
    if Consumed(argv, j, t) then None
    else
      match ShapeAt(argv, j, t)
      case Attached(role, _, value) => SaidBy(role, value, t, toml)
      case Equals(role, _, value) => SaidBy(role, value, t, toml)
      case Separate(role, _, value) => SaidBy(role, value, t, toml)
      case Opaque(_) => None
      case Switch => None
      case Word => None
  }

  /** The last value said in each way before position `n`. */
  type Heard = map<Way, string>

  function Hear(h: Heard, said: Option<Said>): Heard {
    if said.Some? then h[said.value.way := said.value.value] else h
  }

  function HeardBefore(argv: seq<string>, n: nat, t: Table, toml: Reader): Heard
    requires 1 <= n <= |argv|
  {
    if n == 1 then map[] else Hear(HeardBefore(argv, n - 1, t, toml), SaidAt(argv, n - 1, t, toml))
  }

  function Last(h: Heard, setting: Setting, byFlag: bool): Option<string> {
    if Way(setting, byFlag) in h then Some(h[Way(setting, byFlag)]) else None
  }

  /** The last explicit flag, else the last accepted configuration value. */
  function Chosen(h: Heard, setting: Setting): Option<string> {
    var flag := Last(h, setting, true);
    if flag.Some? then flag else Last(h, setting, false)
  }

  predicate IsSwitch(token: string, kind: SwitchKind, t: Table) {
    token in t.switches && t.switches[token] == kind
  }

  /** Some token before position `n` is a switch of this kind, wherever it stands. */
  predicate Holds(argv: seq<string>, n: nat, kind: SwitchKind, t: Table)
    requires n <= |argv|
  {
    n > 1 && (IsSwitch(argv[n - 1], kind, t) || Holds(argv, n - 1, kind, t))
  }

  lemma {:induction false} HoldsMeans(argv: seq<string>, n: nat, kind: SwitchKind, t: Table)
    requires n <= |argv|
    ensures Holds(argv, n, kind, t) <==> exists k :: 1 <= k < n && IsSwitch(argv[k], kind, t)
  {
    if n > 1 {
      HoldsMeans(argv, n - 1, kind, t);
    }
  }

  function SourceOf(h: Heard): Source {
    if Last(h, Model, true).Some? then ExplicitFlag
    else if Last(h, Model, false).Some? then ConfigOverride
    else if Last(h, Profile, true).Some? then ProfileFlag
    else Unavailable
  }

  // ---------------------------------------------------------------- the variables of the pass

  datatype Settings = Settings(
    model: Option<string>, profile: Option<string>, effort: Option<string>, sandbox: Option<string>,
    approval: Option<string>, name: Option<string>, named: bool, local: Option<string>, root: Option<string>,
    sandboxExplicit: bool, approvalExplicit: bool, bypass: bool, source: Source)

  function Initially(provider: Provider): Settings {
    Settings(None, None, None, None, None, DefaultName(provider), false, None, None, false, false, false, Unavailable)
  }

  function ApplyFlag(s: Settings, setting: Setting, value: string): Settings {
    match setting
    case Model => s.(model := Some(Truncate(value)), source := ExplicitFlag)
    case Profile =>
      s.(profile := Some(Truncate(value)), source := if s.source == Unavailable then ProfileFlag else s.source)
    case Sandbox => if s.bypass then s else s.(sandbox := Some(Truncate(value)), sandboxExplicit := true)
    case Approval => if s.bypass then s else s.(approval := Some(Truncate(value)), approvalExplicit := true)
    case Root => s.(root := Some(value))
    case LocalProvider => s.(local := Some(Truncate(value)))
    case Effort => s
    case ProviderName => s
  }

  function ApplyConfig(s: Settings, setting: Setting, value: string): Settings {
    match setting
    case Model =>
      if s.source == ExplicitFlag then s else s.(model := Some(Truncate(value)), source := ConfigOverride)
    case Effort => s.(effort := Some(Truncate(value)))
    case ProviderName => s.(name := Some(Truncate(value)), named := true)
    case Sandbox => if s.sandboxExplicit || s.bypass then s else s.(sandbox := Some(Truncate(value)))
    case Approval => if s.approvalExplicit || s.bypass then s else s.(approval := Some(Truncate(value)))
    case Profile => s
    case Root => s
    case LocalProvider => s
  }

  function Apply(s: Settings, said: Option<Said>): Settings {
    if said.None? then s
    else if said.value.way.byFlag then ApplyFlag(s, said.value.way.setting, said.value.value)
    else ApplyConfig(s, said.value.way.setting, said.value.value)
  }

  function Bypassed(s: Settings): Settings {
    s.(bypass := true, sandbox := Some(DANGER), approval := Some(NEVER))
  }

  /** What the token at `j` makes of the settings. */
  function After(s: Settings, argv: seq<string>, j: nat, t: Table, toml: Reader): Settings
    requires 1 <= j < |argv|
  {
    if IsSwitch(argv[j], Bypass, t) then Bypassed(s) else Apply(s, SaidAt(argv, j, t, toml))
  }

  /** The variables at position `n`. */
  function SettingsBefore(argv: seq<string>, n: nat, provider: Provider, t: Table, toml: Reader): Settings
    requires 1 <= n <= |argv|
  {
    if n == 1 then Initially(provider)
    else After(SettingsBefore(argv, n - 1, provider, t, toml), argv, n - 1, t, toml)
  }

  /** The variables agree with what was heard, and with whether a bypass flag was seen. */
  ghost predicate Reflects(s: Settings, h: Heard, bypass: bool, provider: Provider) {
    ReflectsModel(s, h) && ReflectsNames(s, h, provider) && ReflectsPolicy(s, h, bypass)
  }

  ghost predicate ReflectsModel(s: Settings, h: Heard) {
    && s.model == TruncateAll(Chosen(h, Model)) && s.source == SourceOf(h)
    && s.profile == TruncateAll(Last(h, Profile, true))
  }

  ghost predicate ReflectsNames(s: Settings, h: Heard, provider: Provider) {
    && s.effort == TruncateAll(Last(h, Effort, false))
    && s.local == TruncateAll(Last(h, LocalProvider, true))
    && s.root == Last(h, Root, true)
    && s.named == Last(h, ProviderName, false).Some?
    && s.name == if s.named then TruncateAll(Last(h, ProviderName, false)) else DefaultName(provider)
  }

  ghost predicate ReflectsPolicy(s: Settings, h: Heard, bypass: bool) {
    && s.bypass == bypass
    && if bypass then s.sandbox == Some(DANGER) && s.approval == Some(NEVER)
       else
         && s.sandbox == TruncateAll(Chosen(h, Sandbox)) && s.approval == TruncateAll(Chosen(h, Approval))
         && s.sandboxExplicit == Last(h, Sandbox, true).Some? && s.approvalExplicit == Last(h, Approval, true).Some?
  }

  lemma {:induction false} FlagModel(s: Settings, h: Heard, setting: Setting, value: string)
    requires ReflectsModel(s, h)
    ensures ReflectsModel(ApplyFlag(s, setting, value), h[Way(setting, true) := value])
  {
  }

  lemma {:induction false} FlagNames(s: Settings, h: Heard, provider: Provider, setting: Setting, value: string)
    requires ReflectsNames(s, h, provider)
    ensures ReflectsNames(ApplyFlag(s, setting, value), h[Way(setting, true) := value], provider)
  {
  }

  lemma {:induction false} FlagPolicy(s: Settings, h: Heard, bypass: bool, setting: Setting, value: string)
    requires ReflectsPolicy(s, h, bypass)
    ensures ReflectsPolicy(ApplyFlag(s, setting, value), h[Way(setting, true) := value], bypass)
  {
  }

  lemma {:induction false} ConfigModel(s: Settings, h: Heard, setting: Setting, value: string)
    requires ReflectsModel(s, h)
    ensures ReflectsModel(ApplyConfig(s, setting, value), h[Way(setting, false) := value])
  {
  }

  lemma {:induction false} ConfigNames(s: Settings, h: Heard, provider: Provider, setting: Setting, value: string)
    requires ReflectsNames(s, h, provider)
    ensures ReflectsNames(ApplyConfig(s, setting, value), h[Way(setting, false) := value], provider)
  {
  }

  lemma {:induction false} ConfigPolicy(s: Settings, h: Heard, bypass: bool, setting: Setting, value: string)
    requires ReflectsPolicy(s, h, bypass)
    ensures ReflectsPolicy(ApplyConfig(s, setting, value), h[Way(setting, false) := value], bypass)
  {
  }

  lemma {:induction false} BypassReflects(s: Settings, h: Heard, bypass: bool, provider: Provider)
    requires Reflects(s, h, bypass, provider)
    ensures Reflects(Bypassed(s), h, true, provider)
  {
  }

  lemma {:induction false} ApplyReflects(s: Settings, h: Heard, bypass: bool, provider: Provider, said: Option<Said>)
    requires Reflects(s, h, bypass, provider)
    ensures Reflects(Apply(s, said), Hear(h, said), bypass, provider)
  {
    if said.Some? {
      var way := said.value.way;
      assert way == Way(way.setting, way.byFlag);
      if way.byFlag {
        FlagModel(s, h, way.setting, said.value.value);
        FlagNames(s, h, provider, way.setting, said.value.value);
        FlagPolicy(s, h, bypass, way.setting, said.value.value);
      } else {
        ConfigModel(s, h, way.setting, said.value.value);
        ConfigNames(s, h, provider, way.setting, said.value.value);
        ConfigPolicy(s, h, bypass, way.setting, said.value.value);
      }
    }
  }

  lemma {:induction false} HoldsStep(argv: seq<string>, n: nat, kind: SwitchKind, t: Table)
    requires 1 <= n < |argv|
    ensures Holds(argv, n + 1, kind, t) <==> Holds(argv, n, kind, t) || IsSwitch(argv[n], kind, t)
  {
  }

  /** A switch the pass looks for reads as a switch wherever it stands before the double dash. */
  lemma {:induction false} SwitchIsSeen(argv: seq<string>, n: nat, t: Table, toml: Reader)
    requires 1 <= n < |argv| && Sane(t) && argv[n] in t.switches
    ensures !Consumed(argv, n, t) && ShapeAt(argv, n, t) == Switch && SaidAt(argv, n, t, toml) == None
  {
    assert Distinct(argv[n], t);
  }

  /** The names of one table: long ones begin with a double dash, short ones are one letter. */
  predicate Long(o: string) {
    |o| > 2 && o[0] == '-' && o[1] == '-' && '=' !in o
  }

  predicate Short(o: string) {
    |o| == 2 && o[0] == '-' && o[1] != '-' && o[1] != '='
  }

  /** No switch is as long as an option that takes a value. */
  predicate SwitchLength(n: nat) {
    n == 5 || n == 6 || n == 11 || n == 20 || n == 42
  }

  predicate AllLong(m: map<string, Role>) {
    forall o :: o in m ==> Long(o) && !SwitchLength(|o|)
  }

  predicate AllShort(m: map<string, Role>) {
    forall o :: o in m ==> Short(o)
  }

  predicate AllSwitches(m: map<string, SwitchKind>) {
    forall o :: o in m ==> Long(o) && SwitchLength(|o|)
  }

  lemma {:induction false} CodexOther()
    ensures AllLong(CODEX_OTHER)
  {
  }

  lemma {:induction false} CodexShort()
    ensures AllShort(CODEX_ATTACHED)
  {
  }

  lemma {:induction false} SessionOptions(session: Role)
    ensures AllLong(SESSION_LONG) && AllShort(SessionShort(session))
  {
  }

  lemma {:induction false} EqualsOptions()
    ensures AllLong(EQUALS)
  {
  }

  lemma {:induction false} BypassSwitch()
    ensures var o := "--dangerously-bypass-approvals-and-sandbox"; Long(o) && |o| == 42
  {
  }

  lemma {:induction false} Switches()
    ensures AllSwitches(SWITCHES)
  {
    BypassSwitch();
    assert Long("--yolo") && |"--yolo"| == 6;
    assert Long("--full-auto") && |"--full-auto"| == 11;
    assert Long("--oss") && |"--oss"| == 5;
    assert Long("--ignore-user-config") && |"--ignore-user-config"| == 20;
  }

  lemma {:induction false} BothLong(a: map<string, Role>, b: map<string, Role>)
    requires AllLong(a) && AllLong(b)
    ensures AllLong(a + b)
  {
  }

  lemma {:induction false} NamesAreSane(t: Table, long: map<string, Role>)
    requires AllLong(long) && AllShort(t.attached) && AllLong(t.equals) && AllSwitches(t.switches)
    requires t.separate == long + t.attached
    ensures Sane(t)
  {
    forall o | Long(o) || Short(o)
      ensures Distinct(o, t)
    {
      assert |o| > 2 ==> o[..2][1] == '-';
    }
  }

  lemma {:induction false} CodexIsSane()
    ensures Sane(TableOf(Codex))
  {
    Switches();
    CodexOther();
    CodexShort();
    EqualsOptions();
    BothLong(EQUALS, CODEX_OTHER);
    NamesAreSane(TableOf(Codex), CODEX_LONG);
  }

  lemma {:induction false} SessionTableIsSane(session: Role)
    ensures Sane(SessionTable(session))
  {
    Switches();
    SessionOptions(session);
    EqualsOptions();
    NamesAreSane(SessionTable(session), SESSION_LONG);
  }

  lemma {:induction false} TablesAreSane(provider: Provider)
    ensures Sane(TableOf(provider))
  {
    match provider {
      case Codex => CodexIsSane();
      case OpenCode => SessionTableIsSane(Hidden);
      case Claude => SessionTableIsSane(Plain);
    }
  }

  lemma {:induction false} TablesAreSpelledOut(provider: Provider)
    ensures SpelledOut(TableOf(provider))
  {
    Switches();
  }

  // ---------------------------------------------------------------- the pass

  /** A token is a value exactly when the token before it reads as an option taking the next token. */
  lemma {:induction false} ValueFollows(argv: seq<string>, j: nat, t: Table)
    requires 1 <= j < |argv| && Sane(t)
    ensures ShapeAt(argv, j, t).Separate? <==> j + 1 < |argv| && Consumed(argv, j + 1, t)
    ensures j + 2 < |argv| && ShapeAt(argv, j, t).Separate? ==> !Consumed(argv, j + 2, t)
    ensures ShapeAt(argv, j, t).Separate? ==>
              && argv[j] in t.separate && argv[j + 1] != END
              && ShapeAt(argv, j, t) == Separate(t.separate[argv[j]], argv[j], argv[j + 1])
  {
    if argv[j] in t.separate {
      assert Distinct(argv[j], t);
    }
  }

  lemma {:induction false} ShownNext(argv: seq<string>, j: nat, t: Table, toml: Reader)
    requires |argv| > 0 && 1 <= j < Stop(argv, 1)
    ensures Shown(argv, t, toml)[..j + 1] == Shown(argv, t, toml)[..j] + [ShownAt(argv, j, t, toml)]
  {
  }

  lemma {:induction false} SubcommandStep(argv: seq<string>, n: nat, t: Table)
    requires n < |argv|
    ensures SubcommandBefore(argv, n + 1, t) <==> SubcommandBefore(argv, n, t) || Subcommand(argv, n, t)
  {
  }

  /** The variables always agree with everything said so far. */
  lemma {:induction false} SettingsReflect(argv: seq<string>, n: nat, provider: Provider, t: Table, toml: Reader)
    requires 1 <= n <= |argv| && Sane(t)
    ensures Reflects(SettingsBefore(argv, n, provider, t, toml), HeardBefore(argv, n, t, toml),
                     Holds(argv, n, Bypass, t), provider)
  {
    if n > 1 {
      var s, h := SettingsBefore(argv, n - 1, provider, t, toml), HeardBefore(argv, n - 1, t, toml);
      SettingsReflect(argv, n - 1, provider, t, toml);
      HoldsStep(argv, n - 1, Bypass, t);
      if IsSwitch(argv[n - 1], Bypass, t) {
        SwitchIsSeen(argv, n - 1, t, toml);
        BypassReflects(s, h, Holds(argv, n - 1, Bypass, t), provider);
      } else {
        ApplyReflects(s, h, Holds(argv, n - 1, Bypass, t), provider, SaidAt(argv, n - 1, t, toml));
      }
    }
  }

  /** Only a token that reads as a switch can be one of the switches the pass looks for. */
  lemma {:induction false} SwitchesNext(argv: seq<string>, n: nat, t: Table, toml: Reader)
    requires 1 <= n < |argv| && Sane(t)
    ensures forall kind :: Holds(argv, n + 1, kind, t) <==> Holds(argv, n, kind, t) || IsSwitch(argv[n], kind, t)
    ensures Consumed(argv, n, t) || !ShapeAt(argv, n, t).Switch? ==> argv[n] !in t.switches
  {
    if argv[n] in t.switches {
      SwitchIsSeen(argv, n, t, toml);
    }
    forall kind
      ensures Holds(argv, n + 1, kind, t) <==> Holds(argv, n, kind, t) || IsSwitch(argv[n], kind, t)
    {
      HoldsStep(argv, n, kind, t);
    }
  }

  /** How many tokens one turn of the loop takes. */
  function Width(argv: seq<string>, j: nat, t: Table): (w: nat)
    requires j < |argv|
    ensures 1 <= w <= 2 && j + w <= |argv|
  {
    if ShapeAt(argv, j, t).Separate? then 2 else 1
  }

  function Texts(argv: seq<string>, j: nat, t: Table, toml: Reader): seq<string>
    requires 1 <= j < |argv|
  {
    if Width(argv, j, t) == 2 then [ShownAt(argv, j, t, toml), ShownAt(argv, j + 1, t, toml)]
    else [ShownAt(argv, j, t, toml)]
  }

  lemma {:induction false} ShownTurn(argv: seq<string>, j: nat, t: Table, toml: Reader)
    requires |argv| > 0 && 1 <= j < Stop(argv, 1) && Sane(t)
    ensures j + Width(argv, j, t) <= Stop(argv, 1)
    ensures Shown(argv, t, toml)[..j] + Texts(argv, j, t, toml) == Shown(argv, t, toml)[..j + Width(argv, j, t)]
    ensures |Texts(argv, j, t, toml)| == Width(argv, j, t)
  {
    ValueFollows(argv, j, t);
    ShownNext(argv, j, t, toml);
    if Width(argv, j, t) == 2 {
      assert argv[j + 1] != END;
      ShownNext(argv, j + 1, t, toml);
    }
  }

  lemma {:induction false} SubcommandTurn(argv: seq<string>, j: nat, t: Table)
    requires 1 <= j < |argv| && Sane(t) && !Consumed(argv, j, t)
    ensures var n := j + Width(argv, j, t);
            && (n < |argv| ==> !Consumed(argv, n, t))
            && (SubcommandBefore(argv, n, t) <==> SubcommandBefore(argv, j, t) || Subcommand(argv, j, t))
  {
    ValueFollows(argv, j, t);
    SubcommandStep(argv, j, t);
    if Width(argv, j, t) == 2 {
      SubcommandStep(argv, j + 1, t);
    }
  }

  /** A value taken by the option before it changes nothing itself. */
  lemma {:induction false} ValueIsSilent(argv: seq<string>, n: nat, provider: Provider, t: Table, toml: Reader)
    requires 1 <= n < |argv| && Sane(t) && Consumed(argv, n, t)
    ensures SettingsBefore(argv, n + 1, provider, t, toml) == SettingsBefore(argv, n, provider, t, toml)
  {
    SwitchesNext(argv, n, t, toml);
  }

  lemma {:induction false} SettingsNext(argv: seq<string>, j: nat, provider: Provider, t: Table, toml: Reader)
    requires 1 <= j < |argv|
    ensures SettingsBefore(argv, j + 1, provider, t, toml)
            == After(SettingsBefore(argv, j, provider, t, toml), argv, j, t, toml)
  {
  }

  lemma {:induction false} SettingsTurn(argv: seq<string>, j: nat, provider: Provider, t: Table, toml: Reader)
    requires 1 <= j < |argv| && Sane(t)
    ensures SettingsBefore(argv, j + Width(argv, j, t), provider, t, toml)
            == After(SettingsBefore(argv, j, provider, t, toml), argv, j, t, toml)
  {
    SettingsNext(argv, j, provider, t, toml);
    if Width(argv, j, t) == 2 {
      ValueFollows(argv, j, t);
      ValueIsSilent(argv, j + 1, provider, t, toml);
    }
  }

  lemma {:induction false} SwitchesTurn(argv: seq<string>, j: nat, t: Table, toml: Reader)
    requires 1 <= j < |argv| && Sane(t)
    ensures forall kind :: Holds(argv, j + Width(argv, j, t), kind, t) <==>
              Holds(argv, j, kind, t) || IsSwitch(argv[j], kind, t)
  {
    SwitchesNext(argv, j, t, toml);
    if Width(argv, j, t) == 2 {
      ValueFollows(argv, j, t);
      SwitchesNext(argv, j + 1, t, toml);
    }
  }

  /** One turn of the loop, up to the switches: what it shows and what it hears. */
  method ReadToken(argv: seq<string>, index: nat, t: Table, toml: Reader, subcommandSeen: bool)
    returns (texts: seq<string>, said: Option<Said>)
    requires 1 <= index < |argv| && Sane(t) && !Consumed(argv, index, t)
    requires subcommandSeen == SubcommandBefore(argv, index, t)
    ensures said == SaidAt(argv, index, t, toml) && texts == Texts(argv, index, t, toml)
  {
    var token := argv[index];
    var eq := Find(token, '=');
    ghost var shape := ShapeAt(argv, index, t);
    ValueFollows(argv, index, t);
    said := None;
    if |token| > 2 && token[..2] in t.attached {
      var role, value := t.attached[token[..2]], WithoutEquals(token[2..]);
      assert shape == Attached(role, token[..2], value);
      texts := [Truncate(token[..2] + SafeValue(role, value, t, toml))];
      said := SaidBy(role, value, t, toml);
    } else if eq < |token| && token[..eq] in t.equals {
      var role, value := t.equals[token[..eq]], token[eq + 1..];
      assert shape == Equals(role, token[..eq], value);
      texts := [Truncate(if role.Configures? then token[..eq] + "=" + SafeValue(role, value, t, toml) else token)];
      said := SaidBy(role, value, t, toml);
    } else if eq < |token| && Dash(token) {
      assert shape == Opaque(token[..eq]);
      texts := [token[..eq] + "=" + OPTION];
    } else if token in t.separate && index + 1 < |argv| && !Dash(argv[index + 1]) {
      var role, value := t.separate[token], argv[index + 1];
      assert shape == Separate(role, token, value);
      texts := [token, Truncate(SafeValue(role, value, t, toml))];
      said := SaidBy(role, value, t, toml);
    } else if Dash(token) {
      assert shape == Switch;
      texts := [ShownSwitch(token)];
    } else if token in t.subcommands && !subcommandSeen {
      assert shape == Word;
      texts := [token];
    } else {
      assert shape == Word;
      texts := [PAYLOAD];
    }
  }

  method Turn(argv: seq<string>, index: nat, ghost provider: Provider, t: Table, toml: Reader, subcommandSeen: bool,
              s: Settings,
              ghost shown: seq<string>)
    returns (texts: seq<string>, seen: bool, s': Settings)
    requires |argv| > 0 && shown == Shown(argv, t, toml)
    requires 1 <= index < Stop(argv, 1) && Sane(t) && !Consumed(argv, index, t)
    requires subcommandSeen == SubcommandBefore(argv, index, t) && s == SettingsBefore(argv, index, provider, t, toml)
    ensures |texts| == Width(argv, index, t) && index + |texts| <= Stop(argv, 1)
    ensures shown[..index] + texts == shown[..index + |texts|]
    ensures index + |texts| < |argv| ==> !Consumed(argv, index + |texts|, t)
    ensures seen == SubcommandBefore(argv, index + |texts|, t)
    ensures s' == SettingsBefore(argv, index + |texts|, provider, t, toml)
  {
    ShownTurn(argv, index, t, toml);
    SubcommandTurn(argv, index, t);
    SettingsTurn(argv, index, provider, t, toml);
    var said;
    texts, said := ReadToken(argv, index, t, toml, subcommandSeen);
    seen := subcommandSeen || Subcommand(argv, index, t);
    s' := if IsSwitch(argv[index], Bypass, t) then Bypassed(s) else Apply(s, said);
  }

  /** The variables of the loop beside the index. */
  datatype Pass = Pass(sanitized: seq<string>, s: Settings, subcommandSeen: bool, oss: bool, fullAuto: bool,
                       ignore: bool, bypassed: bool)

  /** What they hold when the loop reaches `index`. */
  ghost predicate Reached(p: Pass, argv: seq<string>, index: nat, provider: Provider, t: Table, toml: Reader) {
    && |argv| > 0 && 1 <= index <= Stop(argv, 1) && (index < |argv| ==> !Consumed(argv, index, t))
    && p.sanitized == Shown(argv, t, toml)[..index]
    && p.s == SettingsBefore(argv, index, provider, t, toml)
    && p.subcommandSeen == SubcommandBefore(argv, index, t)
    && Switched(argv, index, t, p.oss, p.fullAuto, p.ignore, p.bypassed)
  }

  ghost predicate Switched(argv: seq<string>, index: nat, t: Table, oss: bool, fullAuto: bool, ignore: bool,
                           bypassed: bool)
    requires index <= |argv|
  {
    && oss == Holds(argv, index, Oss, t) && ignore == Holds(argv, index, IgnoreUserConfig, t)
    && bypassed == Holds(argv, index, Bypass, t)
    && (!bypassed ==> fullAuto == Holds(argv, index, FullAuto, t))
  }

  /** What a token does to the four switches. */
  ghost predicate Noted(p: Pass, token: string, t: Table, oss: bool, fullAuto: bool, ignore: bool, bypassed: bool) {
    && (oss <==> p.oss || IsSwitch(token, Oss, t)) && (ignore <==> p.ignore || IsSwitch(token, IgnoreUserConfig, t))
    && (bypassed <==> p.bypassed || IsSwitch(token, Bypass, t))
    && (!bypassed ==> (fullAuto <==> p.fullAuto || IsSwitch(token, FullAuto, t)))
  }

  lemma {:induction false} NotedTurn(p: Pass, argv: seq<string>, j: nat, t: Table, toml: Reader, oss: bool,
                                     fullAuto: bool, ignore: bool, bypassed: bool)
    requires 1 <= j < |argv| && Sane(t) && Switched(argv, j, t, p.oss, p.fullAuto, p.ignore, p.bypassed)
    requires Noted(p, argv[j], t, oss, fullAuto, ignore, bypassed)
    ensures Switched(argv, j + Width(argv, j, t), t, oss, fullAuto, ignore, bypassed)
  {
    SwitchesTurn(argv, j, t, toml);
  }

  method NoteSwitch(p: Pass, token: string, t: Table)
    returns (oss: bool, fullAuto: bool, ignore: bool, bypassed: bool)
    ensures Noted(p, token, t, oss, fullAuto, ignore, bypassed)
  {
    oss, fullAuto, ignore, bypassed := p.oss, p.fullAuto, p.ignore, p.bypassed;
    if IsSwitch(token, IgnoreUserConfig, t) {
      ignore := true;
    } else if IsSwitch(token, Oss, t) {
      oss := true;
    } else if IsSwitch(token, FullAuto, t) && !bypassed {
      fullAuto := true;
    } else if IsSwitch(token, Bypass, t) {
      bypassed := true;
    }
  }

  lemma {:induction false} StartReached(argv: seq<string>, provider: Provider, t: Table, toml: Reader)
    requires |argv| > 0
    ensures Reached(Pass([argv[0]], Initially(provider), false, false, false, false, false), argv, 1, provider, t, toml)
  {
    assert !Subcommand(argv, 0, t);
  }

  /** The body of the loop. */
  method TakeToken(p: Pass, argv: seq<string>, index: nat, ghost provider: Provider, t: Table, toml: Reader)
    returns (p': Pass, next: nat)
    requires Sane(t) && Reached(p, argv, index, provider, t, toml) && index < |argv| && argv[index] != END
    ensures index < next && Reached(p', argv, next, provider, t, toml)
  {
    var oss, fullAuto, ignore, bypassed := NoteSwitch(p, argv[index], t);
    NotedTurn(p, argv, index, t, toml, oss, fullAuto, ignore, bypassed);
    var texts, subcommandSeen, s := Turn(argv, index, provider, t, toml, p.subcommandSeen, p.s, Shown(argv, t, toml));
    p' := Pass(p.sanitized + texts, s, subcommandSeen, oss, fullAuto, ignore, bypassed);
    next := index + |texts|;
  }

  lemma {:induction false} ShownEnd(argv: seq<string>, t: Table, toml: Reader)
    requires |argv| > 0 && Stop(argv, 1) < |argv|
    ensures var stop := Stop(argv, 1);
            Shown(argv, t, toml) == Shown(argv, t, toml)[..stop] + [END] + seq(|argv| - stop - 1, _ => PAYLOAD)
  {
  }

  /** Where the loop ends, and what is still to be shown there. */
  lemma {:induction false} LoopEnds(p: Pass, argv: seq<string>, index: nat, provider: Provider, t: Table, toml: Reader)
    requires Reached(p, argv, index, provider, t, toml) && (index < |argv| ==> argv[index] == END)
    ensures index == Stop(argv, 1)
    ensures Shown(argv, t, toml)
            == if index < |argv| then p.sanitized + [END] + seq(|argv| - index - 1, _ => PAYLOAD) else p.sanitized
  {
    if index < |argv| {
      assert index == Stop(argv, 1);
      ShownEnd(argv, t, toml);
    }
  }

  method Scan(argv: seq<string>, provider: Provider, t: Table, toml: Reader) returns (p: Pass)
    requires |argv| > 0 && Sane(t)
    ensures p.sanitized == Shown(argv, t, toml)
    ensures p.s == SettingsBefore(argv, Stop(argv, 1), provider, t, toml)
    ensures p.oss == Holds(argv, Stop(argv, 1), Oss, t) && p.ignore == Holds(argv, Stop(argv, 1), IgnoreUserConfig, t)
    ensures !Holds(argv, Stop(argv, 1), Bypass, t) ==> p.fullAuto == Holds(argv, Stop(argv, 1), FullAuto, t)
  {
    p := Pass([argv[0]], Initially(provider), false, false, false, false, false);
    var index := 1;
    StartReached(argv, provider, t, toml);
    while index < |argv| && argv[index] != END
      invariant index <= |argv| && Reached(p, argv, index, provider, t, toml)
      decreases |argv| - index
    {
      p, index := TakeToken(p, argv, index, provider, t, toml);
    }
    LoopEnds(p, argv, index, provider, t, toml);
    if index < |argv| {
      p := p.(sanitized := p.sanitized + [END] + seq(|argv| - index - 1, _ => PAYLOAD));
    }
  }

  datatype Parsed = Parsed(
    argv: seq<string>, name: Option<string>, named: bool, model: Option<string>, profile: Option<string>,
    effort: Option<string>, sandbox: Option<string>, approval: Option<string>, ignoreUserConfig: bool,
    root: Option<string>, source: Source)

  datatype Fault = NoExecutable

  /** The provider a run is attributed to and whether the command line gave it, from what was heard. */
  function ProviderOf(provider: Provider, h: Heard, oss: bool): (Option<string>, bool) {
    var configured, local, model := Last(h, ProviderName, false), TruncateAll(Last(h, LocalProvider, true)),
                                    TruncateAll(Chosen(h, Model));
    var given := if configured.Some? then TruncateAll(configured) else DefaultName(provider);
    if provider.Codex? && oss then
      if local.Some? && local.value != "" then (local, true)
      else (if given == DefaultName(Codex) then None else given, configured.Some?)
    else if provider.OpenCode? && model.Some? && '/' in model.value then
      (Some(Truncate(model.value[..Find(model.value, '/')])), true)
    else (given, configured.Some?)
  }

  /** Whom a run is attributed to, and whether the command line said so. A local codex run goes to the local provider it
      names, and to nobody when it names none and no other is configured; an opencode run to what its model has before
      the slash; any other to the configured provider, else to the one that stands for the tool. */
  lemma {:induction false} ProviderMeans(provider: Provider, h: Heard, oss: bool)
    ensures var r, configured, local := ProviderOf(provider, h, oss), Last(h, ProviderName, false),
                                        Last(h, LocalProvider, true);
            var usual := if configured.Some? then (Some(Truncate(configured.value)), true)
                         else match provider
                              case Codex => (Some("openai"), false)
                              case OpenCode => (None, false)
                              case Claude => (Some("anthropic"), false);
            && (provider.Codex? && oss && local.Some? && local.value != "" ==> r == (Some(Truncate(local.value)), true))
            && (provider.Codex? && oss && (local.None? || local.value == "") ==>
                  r == if usual.0 == Some("openai") then (None, usual.1) else usual)
            && (provider.Claude? || (provider.Codex? && !oss) ==> r == usual)
            && (provider.OpenCode? && (Chosen(h, Model).None? || '/' !in Truncate(Chosen(h, Model).value)) ==>
                  r == usual)
  {
    var local := Last(h, LocalProvider, true);
    assert local.Some? && |local.value| > MAX_STRING_LENGTH ==> |Truncate(local.value)| == MAX_STRING_LENGTH;
  }

  lemma {:induction false} OpenCodeNamesProvider(h: Heard, oss: bool, vendor: string, rest: string)
    requires Chosen(h, Model) == Some(vendor + "/" + rest) && '/' !in vendor && |vendor| + 1 + |rest| <= 1024
    ensures ProviderOf(OpenCode, h, oss) == (Some(vendor), true)
  {
    FindAt(vendor, '/', rest);
    assert ['/'] == "/" && (vendor + "/" + rest)[..|vendor|] == vendor && (vendor + "/" + rest)[|vendor|] == '/';
  }

  method NameProvider(provider: Provider, s: Settings, oss: bool, ghost h: Heard)
    returns (name: Option<string>, named: bool)
    requires ReflectsModel(s, h) && ReflectsNames(s, h, provider)
    ensures (name, named) == ProviderOf(provider, h, oss)
  {
    name, named := s.name, s.named;
    if provider.Codex? && oss {
      if s.local.Some? && s.local.value != "" {
        name, named := s.local, true;
      } else if name == DefaultName(provider) {
        name := None;
      }
    }
    if provider.OpenCode? && s.model.Some? {
      var slash := Find(s.model.value, '/');
      if slash < |s.model.value| {
        name, named := Some(Truncate(s.model.value[..slash])), true;
      }
    }
  }

  /** _sanitize_and_resolve. The model is the last explicit flag, else the last accepted configuration
      value; a bypass flag anywhere before the double dash fixes sandbox and approval. */
  method SanitizeAndResolve(argv: seq<string>, provider: Provider, toml: Reader) returns (r: Result<Parsed, Fault>)
    ensures r.Err? <==> argv == []
    ensures r.Ok? ==>
              var t, stop := TableOf(provider), Stop(argv, 1);
              var h := HeardBefore(argv, stop, t, toml);
              && r.value.argv == Bounded(Shown(argv, t, toml))
              && r.value.model == TruncateAll(Chosen(h, Model)) && r.value.source == SourceOf(h)
              && r.value.profile == TruncateAll(Last(h, Profile, true))
              && r.value.effort == TruncateAll(Last(h, Effort, false)) && r.value.root == Last(h, Root, true)
              && r.value.ignoreUserConfig == Holds(argv, stop, IgnoreUserConfig, t)
              && (Holds(argv, stop, Bypass, t) ==>
                    r.value.sandbox == Some("danger-full-access") && r.value.approval == Some("never"))
              && (!Holds(argv, stop, Bypass, t) && Holds(argv, stop, FullAuto, t) ==>
                    r.value.sandbox == Some("workspace-write") && r.value.approval == Some("never"))
              && (!Holds(argv, stop, Bypass, t) && !Holds(argv, stop, FullAuto, t) ==>
                    && r.value.sandbox == TruncateAll(Chosen(h, Sandbox))
                    && r.value.approval == TruncateAll(Chosen(h, Approval)))
              && (r.value.name, r.value.named) == ProviderOf(provider, h, Holds(argv, stop, Oss, t))
  {
    if argv == [] {
      return Err(NoExecutable);
    }
    TablesAreSane(provider);
    var t := TableOf(provider);
    var p := Scan(argv, provider, t, toml);
    var s := p.s;
    SettingsReflect(argv, Stop(argv, 1), provider, t, toml);
    var name, named := NameProvider(provider, s, p.oss, HeardBefore(argv, Stop(argv, 1), t, toml));
    if p.fullAuto && !s.bypass {
      s := s.(sandbox := Some(WORKSPACE), approval := Some(NEVER));
    }
    r := Ok(Parsed(Bounded(p.sanitized), name, named, s.model, s.profile, s.effort, s.sandbox, s.approval,
                   p.ignore, s.root, s.source));
  }

  /** A provider is recorded as given by the command line and yet without a name exactly for a local run of the
      first provider whose configuration names "openai" and whose local provider is absent or empty. */
  lemma {:induction false} NamelessExactlyWhen(provider: Provider, h: Heard, oss: bool)
    ensures ProviderOf(provider, h, oss) == (None, true) <==>
              && provider.Codex? && oss && Last(h, ProviderName, false) == Some("openai")
              && (Last(h, LocalProvider, true) == None || Last(h, LocalProvider, true) == Some(""))
  {
    var configured := Last(h, ProviderName, false);
    assert configured.Some? && |configured.value| > MAX_STRING_LENGTH ==>
             |Truncate(configured.value)| == MAX_STRING_LENGTH;
  }

  lemma {:induction false} FindAt(a: string, c: char, b: string)
    requires c !in a
    ensures Find(a + [c] + b, c) == |a|
  {
    if a == [] {
      assert ([c] + b)[0] == c;
      assert a + [c] + b == [c] + b;
    } else {
      FindAt(a[1..], c, b);
      assert (a + [c] + b)[1..] == a[1..] + [c] + b;
    }
  }

  lemma {:induction false} AcceptedBareWord(key: string, raw: string, t: Table, toml: Reader)
    requires '=' !in key && Strip(key) == key && key in t.keys
    requires toml(raw) == Malformed && Strip(raw) == raw && Bare(raw)
    ensures Assignment(key + ['='] + raw, t, toml) == Some((key, raw))
  {
    FindAt(key, '=', raw);
    var value := key + ['='] + raw;
    assert value[..|key|] == key && value[|key| + 1..] == raw;
  }

  /** A command line of one configuration assignment and one switch. */
  lemma {:induction false} ConfigThenSwitch(argv: seq<string>, t: Table, toml: Reader, key: string, raw: string)
    requires Sane(t) && |argv| == 4 && |argv[1]| == 2 && argv[1] in t.separate && t.separate[argv[1]] == Configures
    requires argv[2] != END && !Dash(argv[2]) && argv[3] in t.switches
    requires key in t.keys && Assignment(argv[2], t, toml) == Some((key, raw))
    ensures Stop(argv, 1) == 4 && HeardBefore(argv, 4, t, toml) == map[Way(t.keys[key], false) := raw]
    ensures Holds(argv, 4, t.switches[argv[3]], t)
  {
    assert Distinct(argv[1], t) && Distinct(argv[3], t);
    assert Find(argv[1], '=') == |argv[1]|;
    assert SaidAt(argv, 1, t, toml) == Some(Said(Way(t.keys[key], false), raw));
    SwitchIsSeen(argv, 3, t, toml);
    assert HeardBefore(argv, 2, t, toml) == map[Way(t.keys[key], false) := raw];
    assert HeardBefore(argv, 3, t, toml) == HeardBefore(argv, 2, t, toml);
  }

  lemma {:induction false} ModelProviderIsAccepted(t: Table, toml: Reader)
    requires t.keys == KEYS && toml("openai") == Malformed
    ensures "model_provider" in t.keys && t.keys["model_provider"] == ProviderName
    ensures Assignment("model_provider=openai", t, toml) == Some(("model_provider", "openai"))
  {
    assert Strip("model_provider") == "model_provider" && Strip("openai") == "openai";
    AcceptedBareWord("model_provider", "openai", t, toml);
    assert "model_provider" + ['='] + "openai" == "model_provider=openai";
  }

  lemma {:induction false} CodexReads()
    ensures var t := TableOf(Codex);
            && "-c" in t.separate && t.separate["-c"] == Configures
            && "--oss" in t.switches && t.switches["--oss"] == Oss && t.keys == KEYS
  {
    assert "-c" in CODEX_ATTACHED && CODEX_ATTACHED["-c"] == Configures;
  }

  predicate Nameless(argv: seq<string>, t: Table, toml: Reader)
    requires |argv| > 0
  {
    ProviderOf(Codex, HeardBefore(argv, Stop(argv, 1), t, toml), Holds(argv, Stop(argv, 1), Oss, t)) == (None, true)
  }

  lemma {:induction false} NamelessOn(argv: seq<string>, t: Table, toml: Reader, key: string)
    requires Sane(t) && |argv| == 4 && |argv[1]| == 2 && argv[1] in t.separate && t.separate[argv[1]] == Configures
    requires argv[2] != END && !Dash(argv[2]) && argv[3] in t.switches && t.switches[argv[3]] == Oss
    requires key in t.keys && t.keys[key] == ProviderName && Assignment(argv[2], t, toml) == Some((key, "openai"))
    ensures Nameless(argv, t, toml)
  {
    ConfigThenSwitch(argv, t, toml, key, "openai");
    NamelessExactlyWhen(Codex, HeardBefore(argv, 4, t, toml), true);
  }

  /** Such runs exist: whatever the executable, with any reader that refuses the bare word as TOML. */
  lemma {:induction false} NamelessRun(argv: seq<string>, toml: Reader)
    requires |argv| == 4 && argv[1] == "-c" && argv[2] == "model_provider=openai" && argv[3] == "--oss"
    requires toml("openai") == Malformed
    ensures Nameless(argv, TableOf(Codex), toml)
  {
    TablesAreSane(Codex);
    CodexReads();
    ModelProviderIsAccepted(TableOf(Codex), toml);
    NamelessOn(argv, TableOf(Codex), toml, "model_provider");
  }

  // ---------------------------------------------------------------- what the specification means

  predicate SaysAt(argv: seq<string>, j: nat, way: Way, t: Table, toml: Reader)
    requires 1 <= j < |argv|
  {
    SaidAt(argv, j, t, toml).Some? && SaidAt(argv, j, t, toml).value.way == way
  }

  /** The last position before `n` that speaks in a way, or 0. */
  function Speaker(argv: seq<string>, n: nat, way: Way, t: Table, toml: Reader): (j: nat)
    requires 1 <= n <= |argv|
    ensures j < n && (j > 0 ==> SaysAt(argv, j, way, t, toml))
    ensures forall k :: 0 < k < n && j < k ==> !SaysAt(argv, k, way, t, toml)
  {
    if n == 1 then 0
    else if SaysAt(argv, n - 1, way, t, toml) then n - 1
    else Speaker(argv, n - 1, way, t, toml)
  }

  /** What was heard in a way is what the last position speaking in that way said. */
  lemma {:induction false} HeardIsLatest(argv: seq<string>, n: nat, way: Way, t: Table, toml: Reader)
    requires 1 <= n <= |argv|
    ensures var h, j := HeardBefore(argv, n, t, toml), Speaker(argv, n, way, t, toml);
            (way in h <==> j > 0) && (way in h ==> h[way] == SaidAt(argv, j, t, toml).value.value)
  {
    if n > 1 {
      HeardIsLatest(argv, n - 1, way, t, toml);
    }
  }

  /** The last explicit flag decides a setting, wherever configuration text stands; without one the last accepted
      configuration text does. */
  lemma {:induction false} FlagDecides(argv: seq<string>, n: nat, setting: Setting, t: Table, toml: Reader)
    requires 1 <= n <= |argv|
    ensures var flag, config := Speaker(argv, n, Way(setting, true), t, toml),
                                Speaker(argv, n, Way(setting, false), t, toml);
            Chosen(HeardBefore(argv, n, t, toml), setting) ==
              if flag > 0 then Some(SaidAt(argv, flag, t, toml).value.value)
              else if config > 0 then Some(SaidAt(argv, config, t, toml).value.value)
              else None
  {
    HeardIsLatest(argv, n, Way(setting, true), t, toml);
    HeardIsLatest(argv, n, Way(setting, false), t, toml);
  }

  /** Who is recorded as having chosen the model. */
  lemma {:induction false} SourceMeans(argv: seq<string>, n: nat, t: Table, toml: Reader)
    requires 1 <= n <= |argv|
    ensures var source := SourceOf(HeardBefore(argv, n, t, toml));
            var flag, config, profile := Speaker(argv, n, Way(Model, true), t, toml) > 0,
                Speaker(argv, n, Way(Model, false), t, toml) > 0, Speaker(argv, n, Way(Profile, true), t, toml) > 0;
            && (source == ExplicitFlag <==> flag) && (source == ConfigOverride <==> !flag && config)
            && (source == ProfileFlag <==> !flag && !config && profile)
  {
    HeardIsLatest(argv, n, Way(Model, true), t, toml);
    HeardIsLatest(argv, n, Way(Model, false), t, toml);
    HeardIsLatest(argv, n, Way(Profile, true), t, toml);
  }

  /** The sanitised list is as long as the command line; a bare positional is a redaction marker unless it is
      the first subcommand, and so is everything after the double dash. */
  lemma {:induction false} PositionalsAreHidden(argv: seq<string>, j: nat, t: Table, toml: Reader)
    requires 1 <= j < |argv| && Sane(t)
    ensures |Shown(argv, t, toml)| == |argv|
    ensures Stop(argv, 1) < j ==> Shown(argv, t, toml)[j] == PAYLOAD
    ensures j < Stop(argv, 1) && !Dash(argv[j]) && !Consumed(argv, j, t) ==>
              Shown(argv, t, toml)[j] ==
                if argv[j] in t.subcommands && (forall k :: 0 <= k < j ==> !Subcommand(argv, k, t)) then argv[j]
                else PAYLOAD
  {
    if !Dash(argv[j]) && !Consumed(argv, j, t) {
      assert ShapeAt(argv, j, t) == Word;
      SubcommandBeforeMeans(argv, j, t);
    }
  }
}
