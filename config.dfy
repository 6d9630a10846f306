/**
 * The dashboard's configuration: key bindings per input mode, the colour
 * table with `#RRGGBB` values, the auto-refresh interval, the naming of
 * key events used as binding keys, and the merge of the default colours
 * into a configuration read from disk.
 */
module Config {

  import opened Wrappers
  import opened Text
  import opened Keys

  datatype GeneralConfig = GeneralConfig(
    tabularMode: bool,
    autoRefreshInterval: nat,
    maxHistoryItems: nat,
    experimentalFx: bool)

  datatype KeyBindings = KeyBindings(
    normalMode: map<String, String>,
    visualMode: map<String, String>,
    commandMode: map<String, String>)

  datatype ColorConfig = ColorConfig(theme: String, customColors: map<String, String>)

  datatype LayoutConfig = LayoutConfig(showHeaders: bool, columnWidths: map<String, nat>, showBorders: bool)

  datatype Config = Config(
    general: GeneralConfig,
    keybindings: KeyBindings,
    colors: ColorConfig,
    layout: LayoutConfig)

  /** The two colours the configuration produces. */
  datatype Color = Rgb(r: nat, g: nat, b: nat) | White

  // ---------------------------------------------------------------- defaults

  const DefaultNormalMode: map<String, String> := map[
    "j" := "SelectNext", "k" := "SelectPrevious", "gg" := "GoToFirst", "G" := "GoToLast",
    "w" := "WordNext", "b" := "WordPrevious", "Ctrl+u" := "HalfPageUp", "Ctrl+d" := "HalfPageDown",
    "v" := "EnterVisualMode", ":" := "EnterCommandMode", "/" := "EnterSearchForward",
    "?" := "EnterSearchBackward", "n" := "NextSearchResult", "N" := "PreviousSearchResult",
    "s" := "StopContainer", "r" := "RestartContainer", "c" := "CopyIp", "o" := "OpenBrowser",
    "t" := "ToggleTabular", "f" := "EnterFilterMode", "Escape" := "ClearFilter", "q" := "Quit"]

  const DefaultVisualMode: map<String, String> := map[
    "j" := "ExtendSelectionNext", "k" := "ExtendSelectionPrevious",
    "s" := "StopSelectedContainers", "r" := "RestartSelectedContainers",
    "Escape" := "EnterNormalMode"]

  const DefaultCommandMode: map<String, String> := map[
    "Enter" := "ExecuteCommand", "Escape" := "CancelCommand", "Tab" := "TabComplete"]

  const DefaultColors: map<String, String> := map[
    "selected_bg" := "#4a4af7", "visual_bg" := "#5D2F00", "search_highlight" := "#4D2D5F",
    "container_name" := "#00AA00", "container_image" := "#AAAA00", "container_status" := "#00AAAA",
    "container_ip" := "#0000AA", "container_ports" := "#AA00AA",
    "container_image_tabular" := "#00AAAA", "container_status_tabular" := "#0000AA",
    "container_ip_tabular" := "#AA00AA", "container_ports_tabular" := "#CCCCCC",
    "mode_normal" := "#00AA00", "mode_visual" := "#AAAA00", "mode_command" := "#0000AA",
    "mode_search" := "#AA00AA",
    "hotkey_red" := "#AA0000", "hotkey_yellow" := "#AAAA00", "hotkey_green" := "#00AA00",
    "hotkey_blue" := "#0000AA", "hotkey_magenta" := "#AA00AA", "hotkey_cyan" := "#00AAAA",
    "hotkey_white" := "#CCCCCC", "hotkey_gray" := "#666666", "hotkey_light_blue" := "#6699CC",
    "background_main" := "#000000", "background_dark" := "#0F0F0F", "background_table" := "#0F0F0F",
    "background_selection" := "#1F1F1F", "background_alt" := "#0F0F0F",
    "background_selection_orange" := "#2F1F0F", "background_very_dark" := "#0A0A0A",
    "background_alt_dark" := "#0A0A0A",
    "border_main" := "#00AAAA", "border_light" := "#4A9EFF",
    "text_selection" := "#8080FF", "text_main" := "#FFFFFF",
    "message_error" := "#AA0000", "message_warning" := "#AAAA00", "message_success" := "#00AA00",
    "filter_text" := "#FFFF00", "filter_cursor" := "#0000FF"]

  const DefaultColumnWidths: map<String, nat> := map[
    "name" := 25, "image" := 20, "status" := 15, "ip" := 15, "ports" := 20]

  /** The built-in configuration; whether the experimental effects are on
      comes from the environment and is a parameter here. */
  function DefaultConfig(experimentalFx: bool): (r: Config)
    ensures r.general.autoRefreshInterval == 0 && r.general.maxHistoryItems == 100
    ensures !r.general.tabularMode && r.general.experimentalFx == experimentalFx
    ensures r.colors.customColors == DefaultColors && r.colors.theme == "default"
  {
    Config(
      GeneralConfig(false, 0, 100, experimentalFx),
      KeyBindings(DefaultNormalMode, DefaultVisualMode, DefaultCommandMode),
      ColorConfig("default", DefaultColors),
      LayoutConfig(true, DefaultColumnWidths, true))
  }

  // ------------------------------------------------------------ key bindings

  /** The binding table of an input mode, by the mode's configuration name. */
  function Bindings(config: Config, mode: String): (r: Option<map<String, String>>)
    ensures r.Some? <==> mode == "normal" || mode == "visual" || mode == "command"
  {
    if mode == "normal" then Some(config.keybindings.normalMode)
    else if mode == "visual" then Some(config.keybindings.visualMode)
    else if mode == "command" then Some(config.keybindings.commandMode)
    else None
  }

  /** The action bound to `key` in `mode`; a key bound to the empty string
      counts as unbound. */
  function GetKeyBinding(config: Config, mode: String, key: String): (r: Option<String>)
    ensures r.Some? <==>
      (Bindings(config, mode).Some? && key in Bindings(config, mode).value && Bindings(config, mode).value[key] != [])
    ensures r.Some? ==> r.value == Bindings(config, mode).value[key] && r.value != []
  {
    match Bindings(config, mode)
    case None => None
    case Some(bindings) =>
      if key in bindings && bindings[key] != [] then Some(bindings[key]) else None
  }

  /** The built-in tables are per mode: `j` means a different action in
      normal and in visual mode. */
  lemma DefaultBindingLookups(fx: bool)
    ensures GetKeyBinding(DefaultConfig(fx), "normal", "j") == Some("SelectNext")
    ensures GetKeyBinding(DefaultConfig(fx), "visual", "j") == Some("ExtendSelectionNext")
  {
    assert DefaultNormalMode["j"] == "SelectNext";
    assert DefaultVisualMode["j"] == "ExtendSelectionNext";
  }

  /** A key bound only in normal mode is unbound in visual mode, an unknown
      mode has no bindings, and command mode binds Enter. */
  lemma DefaultUnboundLookups(fx: bool)
    ensures GetKeyBinding(DefaultConfig(fx), "visual", "q") == None
    ensures GetKeyBinding(DefaultConfig(fx), "command", "Enter") == Some("ExecuteCommand")
    ensures GetKeyBinding(DefaultConfig(fx), "insert", "j") == None
  {
    assert "q" !in DefaultVisualMode;
    assert DefaultCommandMode["Enter"] == "ExecuteCommand";
  }

  /** A binding set to the empty string unmaps the key. */
  lemma UnmappedKey(config: Config, key: String)
    requires key in config.keybindings.visualMode && config.keybindings.visualMode[key] == ""
    ensures GetKeyBinding(config, "visual", key) == None
  {
  }

  // ------------------------------------------------------------ auto refresh

  /** Auto refresh is on exactly when the interval is positive. */
  predicate ShouldAutoRefresh(config: Config)
    ensures ShouldAutoRefresh(config) <==> config.general.autoRefreshInterval != 0
  {
    config.general.autoRefreshInterval > 0
  }

  /** The refresh period, in seconds. */
  function AutoRefreshInterval(config: Config): (seconds: nat)
    ensures seconds == 0 <==> !ShouldAutoRefresh(config)
  {
    config.general.autoRefreshInterval
  }

  lemma DefaultHasNoAutoRefresh(fx: bool)
    ensures !ShouldAutoRefresh(DefaultConfig(fx)) && AutoRefreshInterval(DefaultConfig(fx)) == 0
  {
  }

  // ----------------------------------------------------------------- colours

  /** The value of a hexadecimal digit, in either case. */
  function HexDigitValue(c: char): (r: Option<nat>)
    ensures r.Some? ==> r.value < 16
  {
    if '0' <= c <= '9' then Some(c as int - '0' as int)
    else if 'a' <= c <= 'f' then Some(c as int - 'a' as int + 10)
    else if 'A' <= c <= 'F' then Some(c as int - 'A' as int + 10)
    else None
  }

  /** `u8::from_str_radix(s, 16)` on a two-character slice: two hex digits,
      or a `+` sign and one digit. */
  function ParseHexByte(s: String): (r: Option<nat>)
    requires |s| == 2
    ensures r.Some? ==> r.value < 256
  {
    if s[0] == '+' then HexDigitValue(s[1])
    else
      match (HexDigitValue(s[0]), HexDigitValue(s[1]))
      case (Some(hi), Some(lo)) => Some(hi * 16 + lo)
      case _ => None
  }

  /** A `#RRGGBB` colour: seven characters, a `#`, then three pairs that each
      parse as a base-16 byte. */
  function HexToColor(hex: String): (r: Option<Color>)
    ensures r.Some? ==> |hex| == 7 && hex[0] == '#'
    ensures r.Some? ==> r.value.Rgb? && r.value.r < 256 && r.value.g < 256 && r.value.b < 256
    ensures r.Some? <==>
      |hex| == 7 && hex[0] == '#' &&
      ParseHexByte(hex[1..3]).Some? && ParseHexByte(hex[3..5]).Some? && ParseHexByte(hex[5..7]).Some?
  {
    if |hex| == 7 && hex[0] == '#' then
      match (ParseHexByte(hex[1..3]), ParseHexByte(hex[3..5]), ParseHexByte(hex[5..7]))
      case (Some(r), Some(g), Some(b)) => Some(Rgb(r, g, b))
      case _ => None
    else None
  }

  /** The upper-case hexadecimal digit of `d`. */
  function HexChar(d: nat): (c: char)
    requires d < 16
    ensures HexDigitValue(c) == Some(d)
  {
    if d < 10 then ('0' as int + d) as char else ('A' as int + d - 10) as char
  }

  /** The `#RRGGBB` spelling of a colour. */
  function HexString(r: nat, g: nat, b: nat): (s: String)
    requires r < 256 && g < 256 && b < 256
    ensures |s| == 7 && s[0] == '#'
  {
    ['#', HexChar(r / 16), HexChar(r % 16), HexChar(g / 16), HexChar(g % 16), HexChar(b / 16), HexChar(b % 16)]
  }

  /** Every colour spelt `#RRGGBB` is read back as itself. */
  lemma HexRoundTrip(r: nat, g: nat, b: nat)
    requires r < 256 && g < 256 && b < 256
    ensures HexToColor(HexString(r, g, b)) == Some(Rgb(r, g, b))
  {
    var s := HexString(r, g, b);
    assert s[1..3] == [HexChar(r / 16), HexChar(r % 16)];
    assert s[3..5] == [HexChar(g / 16), HexChar(g % 16)];
    assert s[5..7] == [HexChar(b / 16), HexChar(b % 16)];
  }

  /** Hex digits are read the same in either case. */
  lemma HexDigitCaseInsensitive(c: char)
    ensures HexDigitValue(LowerChar(c)) == HexDigitValue(c)
  {
  }

  /** A byte pair reads the same whatever the case of its letters. */
  lemma ParseHexByteCaseInsensitive(s: String, t: String)
    requires |s| == 2 && |t| == 2 && t[0] == LowerChar(s[0]) && t[1] == LowerChar(s[1])
    ensures ParseHexByte(t) == ParseHexByte(s)
  {
    HexDigitCaseInsensitive(s[0]);
    HexDigitCaseInsensitive(s[1]);
  }

  /** Lower-casing a colour string does not change the colour it names. */
  lemma HexToColorCaseInsensitive(hex: String)
    ensures HexToColor(ToLower(hex)) == HexToColor(hex)
  {
    var low := ToLower(hex);
    if |hex| == 7 && hex[0] == '#' {
      assert low[0] == '#';
      ParseHexByteCaseInsensitive(hex[1..3], low[1..3]);
      ParseHexByteCaseInsensitive(hex[3..5], low[3..5]);
      ParseHexByteCaseInsensitive(hex[5..7], low[5..7]);
    }
  }

  /** The examples the source checks: black, white in mixed case, red, and
      three malformed strings. A `+` sign before a single digit is accepted. */
  lemma HexToColorExamples()
    ensures HexToColor("#000000") == Some(Rgb(0, 0, 0))
    ensures HexToColor("#FfFfFF") == Some(Rgb(255, 255, 255))
    ensures HexToColor("#fF0000") == Some(Rgb(255, 0, 0))
    ensures HexToColor("invalid") == None
    ensures HexToColor("#12345") == None
    ensures HexToColor("#1234567") == None
    ensures HexToColor("#+F+F+F") == Some(Rgb(15, 15, 15))
  {
    assert "#000000"[1..3] == "00" && "#000000"[3..5] == "00" && "#000000"[5..7] == "00";
    assert "#FfFfFF"[1..3] == "Ff" && "#FfFfFF"[3..5] == "Ff" && "#FfFfFF"[5..7] == "FF";
    assert "#fF0000"[1..3] == "fF" && "#fF0000"[3..5] == "00" && "#fF0000"[5..7] == "00";
    assert "#+F+F+F"[1..3] == "+F" && "#+F+F+F"[3..5] == "+F" && "#+F+F+F"[5..7] == "+F";
  }

  /** The colour named `key`: its configured value when that is a valid
      `#RRGGBB` string, White otherwise. */
  function GetColor(config: Config, key: String): (r: Color)
    ensures key !in config.colors.customColors ==> r == White
    ensures key in config.colors.customColors && HexToColor(config.colors.customColors[key]).Some? ==>
      r == HexToColor(config.colors.customColors[key]).value
    ensures key in config.colors.customColors && HexToColor(config.colors.customColors[key]).None? ==>
      r == White
  {
    if key in config.colors.customColors then
      match HexToColor(config.colors.customColors[key])
      case Some(c) => c
      case None => White
    else White
  }

  /** The built-in background is black and an unknown key is white. */
  lemma DefaultBackground(fx: bool)
    ensures GetColor(DefaultConfig(fx), "background_main") == Rgb(0, 0, 0)
  {
    assert DefaultColors["background_main"] == "#000000";
    HexToColorExamples();
  }

  lemma DefaultUnknownColor(fx: bool)
    ensures GetColor(DefaultConfig(fx), "unknown_color") == White
  {
    assert "unknown_color" !in DefaultColors;
  }

  // --------------------------------------------------------- loading merge

  /** The loaded colour table with every default key it lacks filled in. */
  function WithDefaults(loaded: map<String, String>, defaults: map<String, String>): (r: map<String, String>)
    ensures defaults.Keys <= r.Keys
    ensures forall k :: k in loaded ==> k in r && r[k] == loaded[k]
  {
    map k | k in loaded.Keys + defaults.Keys :: if k in loaded then loaded[k] else defaults[k]
  }

  /** After merging, every default key is present, loaded values are kept,
      and nothing else is added. */
  lemma WithDefaultsSpec(loaded: map<String, String>, defaults: map<String, String>)
    ensures WithDefaults(loaded, defaults).Keys == loaded.Keys + defaults.Keys
    ensures forall k :: k in loaded ==> WithDefaults(loaded, defaults)[k] == loaded[k]
    ensures forall k :: k in defaults && k !in loaded ==> WithDefaults(loaded, defaults)[k] == defaults[k]
  {
  }

  /** Merging the defaults a second time changes nothing. */
  lemma WithDefaultsIdempotent(loaded: map<String, String>, defaults: map<String, String>)
    ensures WithDefaults(WithDefaults(loaded, defaults), defaults) == WithDefaults(loaded, defaults)
  {
  }

  /**
   * The merge loop of loading: for each default entry, insert it unless
   * the loaded table already has the key.
   */
  method MergeDefaultColors(loaded: map<String, String>, defaults: map<String, String>) returns (merged: map<String, String>)
    ensures merged == WithDefaults(loaded, defaults)
  {
    merged := loaded;
    var remaining := defaults.Keys;
    while remaining != {}
      invariant remaining <= defaults.Keys
      invariant merged.Keys == loaded.Keys + (defaults.Keys - remaining)
      invariant forall k :: k in loaded ==> merged[k] == loaded[k]
      invariant forall k :: k in merged && k !in loaded ==> k in defaults && merged[k] == defaults[k]
      decreases remaining
    {
      var key :| key in remaining;
      if key !in merged {
        merged := merged[key := defaults[key]];
      }
      remaining := remaining - {key};
    }
  }

  /**
   * Loading: a missing file gives the defaults, a file that does not parse
   * gives the defaults, and a parsed file gets the default colours it
   * lacks. The file's text and the TOML reader are parameters.
   */
  method Load(contents: Option<String>, parse: String -> Option<Config>, experimentalFx: bool) returns (config: Config)
    ensures contents.None? ==> config == DefaultConfig(experimentalFx)
    ensures contents.Some? && parse(contents.value).None? ==> config == DefaultConfig(experimentalFx)
    ensures contents.Some? && parse(contents.value).Some? ==>
      var read := parse(contents.value).value;
      config == read.(colors := read.colors.(customColors := WithDefaults(read.colors.customColors, DefaultColors)))
  {
    if contents.None? {
      return DefaultConfig(experimentalFx);
    }
    var parsed := parse(contents.value);
    if parsed.None? {
      return DefaultConfig(experimentalFx);
    }
    config := parsed.value;
    var colors := MergeDefaultColors(config.colors.customColors, DefaultColors);
    config := config.(colors := config.colors.(customColors := colors));
  }

  /** Every default colour name resolves in a loaded configuration. */
  lemma LoadedHasDefaultKeys(read: Config, key: String)
    requires key in DefaultColors
    ensures key in WithDefaults(read.colors.customColors, DefaultColors)
  {
  }

  // -------------------------------------------------------------- key names

  /** The name a key code is written with in binding tables, if it has one. */
  function KeyName(code: KeyCode): (r: Option<String>)
    ensures r.Some? ==> |r.value| >= 1
  {
    match code
    case Char(c) => Some([c])
    case Enter => Some("Enter")
    case Esc => Some("Escape")
    case Tab => Some("Tab")
    case Backspace => Some("Backspace")
    case Delete => Some("Delete")
    case Insert => Some("Insert")
    case Home => Some("Home")
    case End => Some("End")
    case PageUp => Some("PageUp")
    case PageDown => Some("PageDown")
    case Up => Some("Up")
    case Down => Some("Down")
    case Left => Some("Left")
    case Right => Some("Right")
    case F(n) => Some("F" + NatToString(n))
    case _ => None
  }

  /** The modifier prefix, always in the order Ctrl, Alt, Shift. */
  function ModifierPrefix(m: Modifiers): String {
    (if m.ctrl then "Ctrl+" else "") + (if m.alt then "Alt+" else "") + (if m.shift then "Shift+" else "")
  }

  /**
   * The binding-table spelling of a key event: the modifier prefixes, then
   * the key's name; a key without a name is spelt `Unknown`, modifiers
   * dropped.
   */
  method KeyEventToString(key: KeyEvent) returns (result: String)
    ensures KeyName(key.code).None? ==> result == "Unknown"
    ensures KeyName(key.code).Some? ==> result == ModifierPrefix(key.modifiers) + KeyName(key.code).value
  {
    result := "";
    if key.modifiers.ctrl {
      result := result + "Ctrl+";
    }
    if key.modifiers.alt {
      result := result + "Alt+";
    }
    if key.modifiers.shift {
      result := result + "Shift+";
    }
    assert result == ModifierPrefix(key.modifiers);
    var known := AppendKeyName(result, key.code);
    if known.None? {
      return "Unknown";
    }
    result := known.value;
  }

  /** The match of `key_event_to_string`: appends the key's name, or
      reports that the key has none. */
  method AppendKeyName(prefix: String, code: KeyCode) returns (r: Option<String>)
    ensures KeyName(code).None? ==> r.None?
    ensures KeyName(code).Some? ==> r == Some(prefix + KeyName(code).value)
  {
    match code {
      case Char(c) => r := Some(prefix + [c]);
      case Enter => r := Some(prefix + "Enter");
      case Esc => r := Some(prefix + "Escape");
      case Tab => r := Some(prefix + "Tab");
      case Backspace => r := Some(prefix + "Backspace");
      case Delete => r := Some(prefix + "Delete");
      case Insert => r := Some(prefix + "Insert");
      case Home => r := Some(prefix + "Home");
      case End => r := Some(prefix + "End");
      case PageUp => r := Some(prefix + "PageUp");
      case PageDown => r := Some(prefix + "PageDown");
      case Up => r := Some(prefix + "Up");
      case Down => r := Some(prefix + "Down");
      case Left => r := Some(prefix + "Left");
      case Right => r := Some(prefix + "Right");
      case F(n) => r := Some(prefix + ("F" + NatToString(n)));
      case _ => r := None;
    }
  }

  /** Removes `p` from the front of `s` when it is there. */
  function StripPrefix(p: String, s: String): (r: (bool, String))
    ensures r.0 ==> s == p + r.1
    ensures !r.0 ==> r.1 == s
  {
    if IsPrefix(p, s) then (true, s[|p|..]) else (false, s)
  }

  /** Stripping `p` from `p + rest` gives `rest`; stripping it from a
      string that is shorter or starts differently changes nothing. */
  lemma StripPrefixStep(p: String, present: bool, rest: String)
    requires |p| > 1
    requires !present ==> |rest| < |p| || rest[0] != p[0]
    ensures StripPrefix(p, (if present then p else "") + rest) == (present, rest)
  {
    if present {
      assert (p + rest)[..|p|] == p;
      assert (p + rest)[|p|..] == rest;
    } else {
      assert "" + rest == rest;
      if |rest| >= |p| {
        assert rest[..|p|][0] != p[0];
      }
    }
  }

  /** The key code a name stands for; function keys are numbered up to 255. */
  function KeyCodeOf(name: String): (r: Option<KeyCode>)
  {
    if |name| == 1 then Some(Char(name[0]))
    else if name == "Enter" then Some(Enter)
    else if name == "Escape" then Some(Esc)
    else if name == "Tab" then Some(Tab)
    else if name == "Backspace" then Some(Backspace)
    else if name == "Delete" then Some(Delete)
    else if name == "Insert" then Some(Insert)
    else if name == "Home" then Some(Home)
    else if name == "End" then Some(End)
    else if name == "PageUp" then Some(PageUp)
    else if name == "PageDown" then Some(PageDown)
    else if name == "Up" then Some(Up)
    else if name == "Down" then Some(Down)
    else if name == "Left" then Some(Left)
    else if name == "Right" then Some(Right)
    else if |name| >= 2 && name[0] == 'F' && ParseUsize(name[1..]).Some? && ParseUsize(name[1..]).value < 256 then
      Some(F(ParseUsize(name[1..]).value))
    else None
  }

  /** Strips the modifier prefixes, in the order they are written. */
  function StripModifiers(s: String): (Modifiers, String) {
    var (ctrl, s1) := StripPrefix("Ctrl+", s);
    var (alt, s2) := StripPrefix("Alt+", s1);
    var (shift, s3) := StripPrefix("Shift+", s2);
    (Modifiers(ctrl, alt, shift), s3)
  }

  /** Reads a binding-table key back into the key event it names. */
  function ParseKeyString(s: String): (r: Option<KeyEvent>) {
    var (m, name) := StripModifiers(s);
    match KeyCodeOf(name)
    case None => None
    case Some(code) => Some(KeyEvent(code, m))
  }

  /** The modifiers written before a name that cannot be mistaken for a
      prefix are read back, and so is the name. */
  lemma StripModifiersOf(m: Modifiers, name: String)
    requires |name| == 1 || (|name| > 1 && name[0] != 'C' && name[0] != 'A' && name[0] != 'S')
    ensures StripModifiers(ModifierPrefix(m) + name) == (m, name)
  {
    var shiftPart := (if m.shift then "Shift+" else "") + name;
    var altPart := (if m.alt then "Alt+" else "") + shiftPart;
    var s := (if m.ctrl then "Ctrl+" else "") + altPart;
    assert ModifierPrefix(m) + name == s;
    StripPrefixStep("Shift+", m.shift, name);
    StripPrefixStep("Alt+", m.alt, shiftPart);
    StripPrefixStep("Ctrl+", m.ctrl, altPart);
  }

  /** The key codes that have a name; crossterm numbers function keys with a byte. */
  predicate Named(code: KeyCode) {
    KeyName(code).Some? && (code.F? ==> code.n < 256)
  }

  /** A name longer than one character starts with none of C, A, S. */
  lemma LongNameStart(code: KeyCode)
    requires KeyName(code).Some? && |KeyName(code).value| > 1
    ensures KeyName(code).value[0] != 'C' && KeyName(code).value[0] != 'A' && KeyName(code).value[0] != 'S'
  {
  }

  /** The first seven fixed names are read back. */
  lemma KeyCodeOfEditingName(code: KeyCode)
    requires code.Enter? || code.Esc? || code.Tab? || code.Backspace? || code.Delete? || code.Insert? || code.Home?
    ensures KeyCodeOf(KeyName(code).value) == Some(code)
  {
  }

  /** The other fixed names are read back. */
  lemma KeyCodeOfMovementName(code: KeyCode)
    requires code.End? || code.PageUp? || code.PageDown? || code.Up? || code.Down? || code.Left? || code.Right?
    ensures KeyCodeOf(KeyName(code).value) == Some(code)
  {
  }

  /** `F` and a number below 256 is read back as that function key. */
  lemma KeyCodeOfFunctionKeyName(n: nat)
    requires n < 256
    ensures KeyCodeOf("F" + NatToString(n)) == Some(F(n))
  {
    var name := "F" + NatToString(n);
    assert name[0] == 'F' && name[1..] == NatToString(n);
    ParseUsizeRoundTrip(n);
    assert |name| >= 2;
    // No other key name starts with `F`.
    assert name != "Enter" && name != "Escape" && name != "Tab" && name != "Backspace";
    assert name != "Delete" && name != "Insert" && name != "Home" && name != "End";
    assert name != "PageUp" && name != "PageDown" && name != "Up" && name != "Down";
    assert name != "Left" && name != "Right";
  }

  /** Every named key code is read back from its name. */
  lemma KeyCodeOfName(code: KeyCode)
    requires Named(code)
    ensures KeyCodeOf(KeyName(code).value) == Some(code)
  {
    match code
    case Char(_) =>
    case F(n) => KeyCodeOfFunctionKeyName(n);
    case Enter => KeyCodeOfEditingName(code);
    case Esc => KeyCodeOfEditingName(code);
    case Tab => KeyCodeOfEditingName(code);
    case Backspace => KeyCodeOfEditingName(code);
    case Delete => KeyCodeOfEditingName(code);
    case Insert => KeyCodeOfEditingName(code);
    case Home => KeyCodeOfEditingName(code);
    case End => KeyCodeOfMovementName(code);
    case PageUp => KeyCodeOfMovementName(code);
    case PageDown => KeyCodeOfMovementName(code);
    case Up => KeyCodeOfMovementName(code);
    case Down => KeyCodeOfMovementName(code);
    case Left => KeyCodeOfMovementName(code);
    case Right => KeyCodeOfMovementName(code);
    case _ =>
  }

  /** Every named key event is read back from its spelling, so distinct
      events never share a binding key. */
  lemma KeyStringRoundTrip(key: KeyEvent)
    requires Named(key.code)
    ensures ParseKeyString(ModifierPrefix(key.modifiers) + KeyName(key.code).value) == Some(key)
  {
    var name := KeyName(key.code).value;
    if |name| > 1 {
      LongNameStart(key.code);
    }
    StripModifiersOf(key.modifiers, name);
    KeyCodeOfName(key.code);
  }

  /** Two named key events with the same spelling are the same event. */
  lemma KeyStringInjective(a: KeyEvent, b: KeyEvent)
    requires Named(a.code) && Named(b.code)
    requires ModifierPrefix(a.modifiers) + KeyName(a.code).value == ModifierPrefix(b.modifiers) + KeyName(b.code).value
    ensures a == b
  {
    KeyStringRoundTrip(a);
    KeyStringRoundTrip(b);
  }
}
