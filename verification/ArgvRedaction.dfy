/** What the argv sanitiser of src/agentic_pr_dash/dispatch_telemetry.py hides: which text never reaches the record,
    what stands in its place, and that it decides nothing. */
module ArgvRedaction {
  import opened Wrappers
  import opened ArgvSanitizer

  // ---------------------------------------------------------------- hidden text has no influence

  /** A word of letters, digits and a few marks, as an unquoted value may be. */
  ghost predicate BareWord(word: string) {
    && word != ""
    && forall c :: c in word ==>
         || 'a' <= c <= 'z' || 'A' <= c <= 'Z' || '0' <= c <= '9'
         || c == '_' || c == '.' || c == '+' || c == '/' || c == '-'
  }

  lemma {:induction false} BareIsBareWord(word: string)
    ensures Bare(word) <==> BareWord(word)
  {
    if BareWord(word) {
      forall i | 0 <= i < |word|
        ensures word[i] in word
      {
      }
    }
  }

  lemma {:induction false} SpaceMeans(c: char)
    ensures Space(c) <==> c in " \t\n\U{0B}\U{0C}\r\U{1C}\U{1D}\U{1E}\U{1F}"
  {
  }

  /** What stripping leaves: the text between its first and its last character that is no ASCII white space. */
  lemma {:induction false} StripMeans(s: string) returns (i: nat)
    ensures var n := |Strip(s)|;
            && i + n <= |s| && Strip(s) == s[i..i + n]
            && (forall k :: 0 <= k < i || i + n <= k < |s| ==> Space(s[k]))
            && (n > 0 ==> !Space(s[i]) && !Space(s[i + n - 1]))
    decreases |s|
  {
    i := 0;
    if s != [] && Space(s[0]) {
      i := StripMeans(s[1..]);
      i := i + 1;
    } else if s != [] && Space(s[|s| - 1]) {
      i := StripMeans(s[..|s| - 1]);
    }
  }

  /** The text is an assignment of `parsed` to one of the keys that may be recorded: the value after the first equals
      sign is a TOML string, or no TOML at all but a bare word. */
  ghost predicate Assigns(text: string, key: string, parsed: string, t: Table, toml: Reader) {
    exists i: nat ::
      && i < |text| && text[i] == '=' && '=' !in text[..i] && Strip(text[..i]) == key && key in t.keys
      && var raw := text[i + 1..];
         || toml(raw) == Text(parsed)
         || (toml(raw) == Malformed && parsed == Strip(raw) && BareWord(parsed))
  }

  /** Exactly those assignments are read; any other configuration text is refused. */
  lemma {:induction false} ReadExactlyWhen(text: string, key: string, parsed: string, t: Table, toml: Reader)
    ensures Assignment(text, t, toml) == Some((key, parsed)) <==> Assigns(text, key, parsed, t, toml)
  {
    var i := Find(text, '=');
    if k: nat :| k < |text| && text[k] == '=' && '=' !in text[..k] {
      FirstIs(text, k);
    }
    BareIsBareWord(parsed);
    if Assignment(text, t, toml) == Some((key, parsed)) {
      assert text[i] == '=' && '=' !in text[..i];
    }
  }

  lemma {:induction false} FirstIs(text: string, k: nat)
    requires k < |text| && text[k] == '=' && '=' !in text[..k]
    ensures Find(text, '=') == k
  {
    InPrefix(text, k, Find(text, '='));
    InPrefix(text, Find(text, '='), k);
  }

  lemma {:induction false} InPrefix(text: string, k: nat, n: nat)
    requires n <= |text|
    ensures k < n ==> text[k] in text[..n]
  {
    if k < n {
      assert text[..n][k] == text[k];
    }
  }

  /** Two values of which the same is recorded: hidden ones, configuration texts that assign the same or are both
      refused, and otherwise only equal ones. */
  predicate SameInPublic(role: Role, value: string, value': string, t: Table, toml: Reader) {
    match role
    case Hidden => true
    case Configures => Assignment(value, t, toml) == Assignment(value', t, toml)
    case Sets(_) => value == value'
    case Plain => value == value'
  }

  /** A short switch with letters after the first, which are never recorded. */
  predicate Tailed(token: string) {
    |token| > 2 && token[1] != '-'
  }

  /** Two tokens, in their places, that differ at most in hidden text: the value of an option that hides it, detached or
      attached; configuration text that assigns the same or is refused; what follows the equals sign of an unknown
      option; the tail of a short switch; and a bare word that is no subcommand. */
  predicate AlikeAt(argv: seq<string>, argv': seq<string>, j: nat, t: Table, toml: Reader)
    requires 1 <= j < |argv| == |argv'|
  {
    && Consumed(argv, j, t) == Consumed(argv', j, t)
    && if Consumed(argv, j, t) then
         argv[j - 1] == argv'[j - 1] && SameInPublic(t.separate[argv[j - 1]], argv[j], argv'[j], t, toml)
       else
         match (ShapeAt(argv, j, t), ShapeAt(argv', j, t))
         case (Attached(role, option, value), Attached(role', option', value')) =>
           role == role' && option == option' && SameInPublic(role, value, value', t, toml)
         case (Equals(role, option, value), Equals(role', option', value')) =>
           role == role' && option == option' &&
           if role.Configures? then SameInPublic(role, value, value', t, toml) else value == value'
         case (Opaque(option), Opaque(option')) => option == option'
         case (Separate(_, _, _), Separate(_, _, _)) => argv[j] == argv'[j]
         case (Switch, Switch) =>
           argv[j] == argv'[j] || (Tailed(argv[j]) && Tailed(argv'[j]) && argv[j][..2] == argv'[j][..2])
         case (Word, Word) =>
           argv[j] == argv'[j] || (argv[j] !in t.subcommands && argv'[j] !in t.subcommands)
         case _ => false
  }

  /** Two command lines that differ at most in hidden text, everything behind the double dash included. */
  ghost predicate SameButRedacted(argv: seq<string>, argv': seq<string>, t: Table, toml: Reader)
    requires |argv| > 0
  {
    && |argv'| == |argv| && Stop(argv', 1) == Stop(argv, 1) && argv'[0] == argv[0]
    && forall j :: 1 <= j < Stop(argv, 1) ==> AlikeAt(argv, argv', j, t, toml)
  }

  lemma {:induction false} SameValue(role: Role, value: string, value': string, t: Table, toml: Reader)
    requires SameInPublic(role, value, value', t, toml)
    ensures SafeValue(role, value, t, toml) == SafeValue(role, value', t, toml)
    ensures SaidBy(role, value, t, toml) == SaidBy(role, value', t, toml)
  {
  }

  lemma {:induction false} SameSwitch(argv: seq<string>, argv': seq<string>, j: nat, t: Table, toml: Reader)
    requires Sane(t) && SpelledOut(t) && 1 <= j < |argv| == |argv'| && AlikeAt(argv, argv', j, t, toml)
    ensures forall kind :: IsSwitch(argv[j], kind, t) <==> IsSwitch(argv'[j], kind, t)
  {
    if argv[j] != argv'[j] {
      SwitchesNext(argv, j, t, toml);
      SwitchesNext(argv', j, t, toml);
    }
  }

  lemma {:induction false} SameWord(argv: seq<string>, argv': seq<string>, j: nat, t: Table, toml: Reader)
    requires 1 <= j < |argv| == |argv'| && AlikeAt(argv, argv', j, t, toml)
    ensures Subcommand(argv, j, t) == Subcommand(argv', j, t)
  {
  }

  lemma {:induction false} SameNext(argv: seq<string>, argv': seq<string>, j: nat, t: Table, toml: Reader)
    requires |argv| > 0 && Sane(t) && SameButRedacted(argv, argv', t, toml) && 1 <= j < Stop(argv, 1)
    requires ShapeAt(argv, j, t).Separate? && argv[j] == argv'[j] && ShapeAt(argv', j, t).Separate?
    ensures var role := ShapeAt(argv, j, t).role;
            && ShapeAt(argv', j, t).role == role && ShapeAt(argv', j, t).option == ShapeAt(argv, j, t).option
            && SameInPublic(role, ShapeAt(argv, j, t).value, ShapeAt(argv', j, t).value, t, toml)
  {
    ValueFollows(argv, j, t);
    ValueFollows(argv', j, t);
    assert AlikeAt(argv, argv', j + 1, t, toml);
  }

  lemma {:induction false} SameSaid(argv: seq<string>, argv': seq<string>, j: nat, t: Table, toml: Reader)
    requires |argv| > 0 && Sane(t) && SameButRedacted(argv, argv', t, toml) && 1 <= j < Stop(argv, 1)
    ensures SaidAt(argv, j, t, toml) == SaidAt(argv', j, t, toml)
  {
    assert AlikeAt(argv, argv', j, t, toml);
    if !Consumed(argv, j, t) {
      var one, two := ShapeAt(argv, j, t), ShapeAt(argv', j, t);
      if one.Separate? {
        SameNext(argv, argv', j, t, toml);
      }
      if one.Attached? || one.Equals? || one.Separate? {
        SameValue(one.role, one.value, two.value, t, toml);
      }
    }
  }

  lemma {:induction false} SameShown(argv: seq<string>, argv': seq<string>, j: nat, t: Table, toml: Reader)
    requires 1 <= j < |argv| == |argv'| && AlikeAt(argv, argv', j, t, toml)
    requires SubcommandBefore(argv, j, t) == SubcommandBefore(argv', j, t)
    ensures ShownAt(argv, j, t, toml) == ShownAt(argv', j, t, toml)
  {
    if Consumed(argv, j, t) {
      SameValue(t.separate[argv[j - 1]], argv[j], argv'[j], t, toml);
    } else {
      var one, two := ShapeAt(argv, j, t), ShapeAt(argv', j, t);
      if one.Attached? || one.Equals? {
        SameValue(one.role, one.value, two.value, t, toml);
      }
      if one.Equals? {
        EqualsIsWhole(argv, j, t);
        EqualsIsWhole(argv', j, t);
      }
    }
  }

  lemma {:induction false} EqualsIsWhole(argv: seq<string>, j: nat, t: Table)
    requires j < |argv| && ShapeAt(argv, j, t).Equals?
    ensures argv[j] == ShapeAt(argv, j, t).option + "=" + ShapeAt(argv, j, t).value
  {
    var token, eq := argv[j], Find(argv[j], '=');
    assert token == token[..eq] + [token[eq]] + token[eq + 1..];
  }

  lemma {:induction false} SamePrefix(argv: seq<string>, argv': seq<string>, n: nat, t: Table, toml: Reader)
    requires |argv| > 0 && Sane(t) && SpelledOut(t) && SameButRedacted(argv, argv', t, toml) && 1 <= n <= Stop(argv, 1)
    ensures SubcommandBefore(argv, n, t) == SubcommandBefore(argv', n, t)
    ensures forall kind :: Holds(argv, n, kind, t) <==> Holds(argv', n, kind, t)
  {
    if n > 1 {
      SamePrefix(argv, argv', n - 1, t, toml);
      assert AlikeAt(argv, argv', n - 1, t, toml);
      SameWord(argv, argv', n - 1, t, toml);
      SameSwitch(argv, argv', n - 1, t, toml);
      SubcommandStep(argv, n - 1, t);
      SubcommandStep(argv', n - 1, t);
      SwitchesNext(argv, n - 1, t, toml);
      SwitchesNext(argv', n - 1, t, toml);
    }
  }

  lemma {:induction false} SameHeard(argv: seq<string>, argv': seq<string>, n: nat, t: Table, toml: Reader)
    requires |argv| > 0 && Sane(t) && SameButRedacted(argv, argv', t, toml) && 1 <= n <= Stop(argv, 1)
    ensures HeardBefore(argv, n, t, toml) == HeardBefore(argv', n, t, toml)
  {
    if n > 1 {
      SameHeard(argv, argv', n - 1, t, toml);
      SameSaid(argv, argv', n - 1, t, toml);
    }
  }

  lemma {:induction false} ShownAlike(argv: seq<string>, argv': seq<string>, t: Table, toml: Reader)
    requires |argv'| == |argv| > 0 && Stop(argv', 1) == Stop(argv, 1) && argv'[0] == argv[0]
    requires forall j :: 1 <= j < Stop(argv, 1) ==> ShownAt(argv, j, t, toml) == ShownAt(argv', j, t, toml)
    ensures Shown(argv, t, toml) == Shown(argv', t, toml)
  {
  }

  /** Redacted text has no influence at all: two command lines that differ only there are recorded as the
      same list and decide the same settings. */
  lemma {:induction false} RedactedHasNoInfluence(argv: seq<string>, argv': seq<string>, t: Table, toml: Reader)
    requires |argv| > 0 && Sane(t) && SpelledOut(t) && SameButRedacted(argv, argv', t, toml)
    ensures Shown(argv, t, toml) == Shown(argv', t, toml)
    ensures HeardBefore(argv, Stop(argv, 1), t, toml) == HeardBefore(argv', Stop(argv', 1), t, toml)
    ensures forall kind :: Holds(argv, Stop(argv, 1), kind, t) <==> Holds(argv', Stop(argv', 1), kind, t)
  {
    SamePrefix(argv, argv', Stop(argv, 1), t, toml);
    SameHeard(argv, argv', Stop(argv, 1), t, toml);
    forall j | 1 <= j < Stop(argv, 1)
      ensures ShownAt(argv, j, t, toml) == ShownAt(argv', j, t, toml)
    {
      SamePrefix(argv, argv', j, t, toml);
      assert AlikeAt(argv, argv', j, t, toml);
      SameShown(argv, argv', j, t, toml);
    }
    ShownAlike(argv, argv', t, toml);
  }

  /** Every provider's tables are such. */
  lemma {:induction false} RecordedAlike(provider: Provider, argv: seq<string>, argv': seq<string>, toml: Reader)
    requires |argv| > 0 && SameButRedacted(argv, argv', TableOf(provider), toml)
    ensures Shown(argv, TableOf(provider), toml) == Shown(argv', TableOf(provider), toml)
  {
    TablesAreSane(provider);
    TablesAreSpelledOut(provider);
    RedactedHasNoInfluence(argv, argv', TableOf(provider), toml);
  }

  // ---------------------------------------------------------------- what stands in the place of hidden text

  /** Configuration text that assigns nothing that may be recorded. */
  ghost predicate Refused(text: string, t: Table, toml: Reader) {
    forall key: string, parsed: string :: !Assigns(text, key, parsed, t, toml)
  }

  lemma {:induction false} RefusedReadsAsNothing(text: string, t: Table, toml: Reader)
    requires Refused(text, t, toml)
    ensures Assignment(text, t, toml) == None
  {
    var a := Assignment(text, t, toml);
    if a.Some? {
      ReadExactlyWhen(text, a.value.0, a.value.1, t, toml);
    }
  }

  /** What becomes of the text given to an option, shown after `lead`: a hidden value and refused configuration text
      are replaced and say nothing; an accepted assignment is shown and heard as it was read; any other value is shown
      as it stands, up to the length a record holds. */
  ghost predicate Treated(role: Role, lead: string, text: string, shown: string, said: Option<Said>, t: Table,
                          toml: Reader)
  {
    match role
    case Hidden => shown == Truncate(lead + "<redacted:option>") && said == None
    case Plain => shown == Truncate(lead + text) && said == None
    case Sets(setting) => shown == Truncate(lead + text) && said == Some(Said(Way(setting, true), text))
    case Configures =>
      && (Refused(text, t, toml) ==> shown == Truncate(lead + "<redacted:config>") && said == None)
      && forall key: string, parsed: string :: Assigns(text, key, parsed, t, toml) ==>
           && key in t.keys && shown == Truncate(lead + (key + "=" + parsed))
           && said == Some(Said(Way(t.keys[key], false), parsed))
  }

  lemma {:induction false} TreatedBy(role: Role, lead: string, text: string, t: Table, toml: Reader)
    ensures Treated(role, lead, text, Truncate(lead + SafeValue(role, text, t, toml)), SaidBy(role, text, t, toml), t,
                    toml)
  {
    if role.Configures? {
      if Refused(text, t, toml) {
        RefusedReadsAsNothing(text, t, toml);
      }
      forall key: string, parsed: string | Assigns(text, key, parsed, t, toml)
        ensures Assignment(text, t, toml) == Some((key, parsed))
      {
        ReadExactlyWhen(text, key, parsed, t, toml);
      }
    }
  }

  lemma {:induction false} DetachedValue(argv: seq<string>, j: nat, t: Table, toml: Reader)
    requires Sane(t) && 1 < j < |argv| && j < Stop(argv, 1) && Consumed(argv, j, t)
    ensures var role, shown := t.separate[argv[j - 1]], Shown(argv, t, toml);
            && shown[j - 1] == argv[j - 1] && shown[j] == Truncate("" + SafeValue(role, argv[j], t, toml))
            && SaidAt(argv, j - 1, t, toml) == SaidBy(role, argv[j], t, toml)
  {
    var safe := SafeValue(t.separate[argv[j - 1]], argv[j], t, toml);
    ValueFollows(argv, j - 1, t);
    assert Distinct(argv[j - 1], t);
    assert "" + safe == safe;
  }

  /** An option that takes the next token is itself shown, and its value is treated by its role. */
  lemma {:induction false} DetachedIsTreated(argv: seq<string>, j: nat, t: Table, toml: Reader)
    requires Sane(t) && 1 < j < |argv| && j < Stop(argv, 1) && Consumed(argv, j, t)
    ensures var role, shown := t.separate[argv[j - 1]], Shown(argv, t, toml);
            && shown[j - 1] == argv[j - 1]
            && Treated(role, "", argv[j], shown[j], SaidAt(argv, j - 1, t, toml), t, toml)
  {
    DetachedValue(argv, j, t, toml);
    TreatedBy(t.separate[argv[j - 1]], "", argv[j], t, toml);
  }

  /** So is a value written into the token of a short option, with or without an equals sign between. */
  lemma {:induction false} AttachedIsTreated(argv: seq<string>, j: nat, option: string, text: string, t: Table,
                                             toml: Reader)
    requires 1 <= j < |argv| && j < Stop(argv, 1) && !Consumed(argv, j, t) && |option| == 2 && option in t.attached
    requires argv[j] == option + "=" + text || (argv[j] == option + text && text != "" && text[0] != '=')
    ensures Treated(t.attached[option], option, text, Shown(argv, t, toml)[j], SaidAt(argv, j, t, toml), t, toml)
  {
    assert argv[j][..2] == option && WithoutEquals(argv[j][2..]) == text;
    TreatedBy(t.attached[option], option, text, t, toml);
  }

  lemma {:induction false} SplitsAt(token: string, option: string, text: string)
    requires token == option + "=" + text && '=' !in option
    ensures Find(token, '=') == |option| && token[..|option|] == option && token[|option| + 1..] == text
  {
    FindAt(option, '=', text);
    assert ['='] == "=";
  }

  /** So is the value behind the equals sign of a long option. */
  lemma {:induction false} EqualsIsTreated(argv: seq<string>, j: nat, option: string, text: string, t: Table,
                                           toml: Reader)
    requires 1 <= j < |argv| && j < Stop(argv, 1) && !Consumed(argv, j, t)
    requires argv[j] == option + "=" + text && '=' !in option && option in t.equals && !t.equals[option].Hidden?
    requires |argv[j]| > 2 ==> argv[j][..2] !in t.attached
    ensures Treated(t.equals[option], option + "=", text, Shown(argv, t, toml)[j], SaidAt(argv, j, t, toml), t, toml)
  {
    SplitsAt(argv[j], option, text);
    TreatedBy(t.equals[option], option + "=", text, t, toml);
  }

  /** What stands behind the equals sign of any other option is replaced and says nothing. */
  lemma {:induction false} UnknownIsHidden(argv: seq<string>, j: nat, option: string, text: string, t: Table,
                                           toml: Reader)
    requires 1 <= j < |argv| && j < Stop(argv, 1) && Dash(argv[j])
    requires argv[j] == option + "=" + text && '=' !in option && option !in t.equals
    requires |argv[j]| > 2 ==> argv[j][..2] !in t.attached
    ensures Shown(argv, t, toml)[j] == option + "=<redacted:option>" && SaidAt(argv, j, t, toml) == None
  {
    SplitsAt(argv[j], option, text);
    assert option + "=" + OPTION == option + "=<redacted:option>";
  }

  /** Any other switch that takes no value says nothing; a long one is shown, of a short one its letter only. */
  lemma {:induction false} TailIsHidden(argv: seq<string>, j: nat, t: Table, toml: Reader)
    requires 1 <= j < |argv| && j < Stop(argv, 1) && Dash(argv[j]) && '=' !in argv[j]
    requires j + 1 < |argv| ==> !Consumed(argv, j + 1, t)
    requires |argv[j]| > 2 ==> argv[j][..2] !in t.attached
    ensures SaidAt(argv, j, t, toml) == None
    ensures Shown(argv, t, toml)[j] ==
              if Tailed(argv[j]) then argv[j][..2] + "<redacted:option>" else Truncate(argv[j])
  {
  }

  /** A record holds at most 1024 characters of a token, the last of them a mark when some are cut off. */
  lemma {:induction false} TruncateMeans(s: string)
    ensures |s| <= 1024 ==> Truncate(s) == s
    ensures |s| > 1024 ==> |Truncate(s)| == 1024 && Truncate(s) == s[..1013] + "<truncated>"
  {
    assert |"<truncated>"| == 11;
  }

  /** A record holds at most 128 tokens, and a mark that counts the others. */
  lemma {:induction false} BoundedMeans(shown: seq<string>)
    ensures |shown| <= 128 ==> Bounded(shown) == shown
    ensures |shown| > 128 ==> |Bounded(shown)| == 129 && Bounded(shown)[..128] == shown[..128]
    ensures |shown| > 128 ==> Bounded(shown)[128] == "<truncated:" + Decimal(|shown| - 128) + "-args>"
  {
  }

  lemma {:induction false} BareWordIsRefused(word: string, t: Table, toml: Reader)
    requires '=' !in word
    ensures Refused(word, t, toml)
  {
  }

  lemma {:induction false} WordReads(argv: seq<string>, j: nat, t: Table)
    requires Sane(t) && j < |argv| && !Dash(argv[j])
    ensures ShapeAt(argv, j, t) == Word && argv[j] !in t.separate && argv[j] != END
  {
    assert argv[j] in t.separate ==> Distinct(argv[j], t);
  }

  lemma {:induction false} SentinelAt(argv: seq<string>, t: Table, toml: Reader)
    requires Sane(t) && |argv| == 5 && argv[1] in t.subcommands && argv[2] in t.separate
    requires t.separate[argv[2]] == Configures && '=' !in argv[3]
    requires !Dash(argv[1]) && !Dash(argv[3]) && !Dash(argv[4])
    ensures Shown(argv, t, toml)[3] == "<redacted:config>"
    ensures Shown(argv, t, toml)[4] == "<redacted:payload>"
  {
    WordReads(argv, 1, t);
    WordReads(argv, 3, t);
    WordReads(argv, 4, t);
    assert Distinct(argv[2], t) && Subcommand(argv, 1, t);
    BareWordIsRefused(argv[3], t, toml);
    DetachedIsTreated(argv, 3, t, toml);
    PositionalsAreHidden(argv, 4, t, toml);
  }

  lemma {:induction false} SentinelWords()
    ensures '=' !in "PRIVATE_SENTINEL" && !Dash("PRIVATE_SENTINEL") && !Dash("exec") && !Dash("prompt")
    ensures "exec" in TableOf(Codex).subcommands
  {
  }

  /** A configuration text without an equals sign, and the prompt behind it, are nowhere in the record. */
  lemma {:induction false} SentinelIsHidden(argv: seq<string>, toml: Reader)
    requires |argv| == 5 && argv[1] == "exec" && argv[2] == "-c" && argv[3] == "PRIVATE_SENTINEL"
    requires argv[4] == "prompt"
    ensures var shown := Shown(argv, TableOf(Codex), toml);
            shown[3] == "<redacted:config>" && shown[4] == "<redacted:payload>"
  {
    TablesAreSane(Codex);
    CodexReads();
    SentinelWords();
    SentinelAt(argv, TableOf(Codex), toml);
  }

  // ---------------------------------------------------------------- which options do what

  /** The options of the first provider that take a value, by what the value is for. */
  function OptionsFor(role: Role): set<string> {
    match role
    case Sets(Model) => {"--model", "-m"}
    case Sets(Profile) => {"--profile", "-p"}
    case Sets(Sandbox) => {"--sandbox", "-s"}
    case Sets(Approval) => {"--ask-for-approval", "-a"}
    case Sets(Root) => {"--cd", "-C"}
    case Sets(LocalProvider) => {"--local-provider"}
    case Sets(_) => {}
    case Configures => {"--config", "-c"}
    case Hidden => {"--image", "--output-last-message", "--remote", "-i", "-o"}
    case Plain => {"--add-dir", "--disable", "--enable"}
  }

  lemma {:induction false} EqualsServe(o: string, role: Role)
    requires o in EQUALS
    ensures EQUALS[o] == role <==> o in OptionsFor(role)
  {
  }

  lemma {:induction false} OtherServe(o: string, role: Role)
    requires o in CODEX_OTHER
    ensures CODEX_OTHER[o] == role <==> o in OptionsFor(role)
  {
  }

  lemma {:induction false} AttachedServe(o: string, role: Role)
    requires o in CODEX_ATTACHED
    ensures CODEX_ATTACHED[o] == role <==> o in OptionsFor(role)
  {
  }

  lemma {:induction false} AllServe(o: string, role: Role)
    requires o in OptionsFor(role)
    ensures o in EQUALS || o in CODEX_OTHER || o in CODEX_ATTACHED
  {
  }

  predicate Serve(options: map<string, Role>, o: string, role: Role, names: set<string>) {
    o in options ==> (options[o] == role <==> o in names)
  }

  lemma {:induction false} Joined(a: map<string, Role>, b: map<string, Role>, c: map<string, Role>, o: string,
                                  role: Role, names: set<string>)
    requires Serve(a, o, role, names) && Serve(b, o, role, names) && Serve(c, o, role, names)
    requires o in names ==> o in a || o in b || o in c
    ensures o in a + b + c && (a + b + c)[o] == role <==> o in names
  {
  }

  lemma {:induction false} EachServes(o: string, role: Role)
    ensures Serve(EQUALS, o, role, OptionsFor(role)) && Serve(CODEX_OTHER, o, role, OptionsFor(role))
    ensures Serve(CODEX_ATTACHED, o, role, OptionsFor(role))
  {
    if o in CODEX_ATTACHED {
      AttachedServe(o, role);
    }
    if o in CODEX_OTHER {
      OtherServe(o, role);
    }
    if o in EQUALS {
      EqualsServe(o, role);
    }
  }

  /** These and no others, whether the value follows or is written into the token. */
  lemma {:induction false} OptionsServe(o: string, role: Role)
    ensures var t := TableOf(Codex);
            && (o in t.separate && t.separate[o] == role <==> o in OptionsFor(role))
            && Serve(t.attached, o, role, OptionsFor(role)) && Serve(t.equals, o, role, OptionsFor(role))
  {
    var names, t := OptionsFor(role), TableOf(Codex);
    if o in names {
      AllServe(o, role);
    }
    EachServes(o, role);
    Joined(EQUALS, CODEX_OTHER, CODEX_ATTACHED, o, role, names);
    assert t.separate == EQUALS + CODEX_OTHER + CODEX_ATTACHED;
  }

  /** The switches every provider's pass looks for, and the configuration keys it records. */
  lemma {:induction false} SwitchesAndKeysServe(provider: Provider, token: string)
    ensures var t := TableOf(provider);
            && (IsSwitch(token, Bypass, t) <==> token in {"--dangerously-bypass-approvals-and-sandbox", "--yolo"})
            && (IsSwitch(token, FullAuto, t) <==> token == "--full-auto")
            && (IsSwitch(token, Oss, t) <==> token == "--oss")
            && (IsSwitch(token, IgnoreUserConfig, t) <==> token == "--ignore-user-config")
            && KeysServe(t.keys, token)
  {
    assert TableOf(provider).switches == SWITCHES && TableOf(provider).keys == KEYS;
    SwitchesServe(token);
    RecordedKeys(token);
  }

  lemma {:induction false} SwitchesServe(token: string)
    ensures token in SWITCHES && SWITCHES[token] == Bypass <==>
            token in {"--dangerously-bypass-approvals-and-sandbox", "--yolo"}
    ensures token in SWITCHES && SWITCHES[token] == FullAuto <==> token == "--full-auto"
    ensures token in SWITCHES && SWITCHES[token] == Oss <==> token == "--oss"
    ensures token in SWITCHES && SWITCHES[token] == IgnoreUserConfig <==> token == "--ignore-user-config"
  {
  }

  predicate KeysServe(keys: map<string, Setting>, key: string) {
    && (key in keys && keys[key] == Model <==> key == "model")
    && (key in keys && keys[key] == Effort <==> key == "model_reasoning_effort")
    && (key in keys && keys[key] == ProviderName <==> key == "model_provider")
    && (key in keys && keys[key] == Sandbox <==> key == "sandbox_mode")
    && (key in keys && keys[key] == Approval <==> key == "approval_policy")
    && (key in keys ==> keys[key] in {Model, Effort, ProviderName, Sandbox, Approval})
  }

  lemma {:induction false} RecordedKeys(key: string)
    ensures KeysServe(KEYS, key)
  {
  }

  lemma {:induction false} SessionServes(session: Role, o: string)
    ensures var options := SessionTable(session).separate;
            && (o in options <==> o in {"--model", "-m", "--session", "-s"})
            && (o in {"--model", "-m"} ==> options[o] == Sets(Model))
            && (o == "--session" ==> options[o] == Hidden) && (o == "-s" ==> options[o] == session)
  {
  }

  /** The other two providers differ in one option: what follows -s is hidden or shown. */
  lemma {:induction false} SessionOptionsServe(o: string)
    ensures var hides, shows := TableOf(OpenCode).separate, TableOf(Claude).separate;
            && (o in hides <==> o in {"--model", "-m", "--session", "-s"}) && (o in shows <==> o in hides)
            && (o in {"--model", "-m"} ==> hides[o] == Sets(Model) && shows[o] == Sets(Model))
            && (o == "--session" ==> hides[o] == Hidden && shows[o] == Hidden)
            && (o == "-s" ==> hides[o] == Hidden && shows[o] == Plain)
  {
    SessionServes(Hidden, o);
    SessionServes(Plain, o);
  }
}
