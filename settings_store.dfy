/**
 * The front end's settings store: the default settings, the settings loaded from storage
 * (legacy migration, then a shallow merge over the defaults), the dark-mode rule, applying the
 * locale and theme, and the cached list of detected terminals. Storage, JSON parsing, the
 * system colour-scheme query, the i18n instance and the page's class list come in as values.
 */
module SettingsStore {
  import opened Wrappers
  import opened Terminals

  /** A JSON value as `JSON.parse` returns it. */
  datatype Json =
    | JNull
    | JBool(b: bool)
    | JNumber(n: real)
    | JString(s: string)
    | JArray(items: seq<Json>)
    | JObject(fields: map<string, Json>)

  /** JavaScript truthiness of a JSON value. */
  predicate Truthy(v: Json) {
    match v
    case JNull => false
    case JBool(b) => b
    case JNumber(n) => n != 0.0
    case JString(s) => s != ""
    case JArray(_) => true
    case JObject(_) => true
  }

  /** Truthiness of a property read, `undefined` being falsy. */
  predicate TruthyProp(v: Option<Json>) {
    v.Some? && Truthy(v.value)
  }

  /** The settings object: property names to values. */
  type Settings = map<string, Json>

  const Defaults: Settings := map[
    "editorPath" := JString("code"),
    "defaultTerminal" := JString("cmd"),
    "locale" := JString("zh"),
    "themeMode" := JString("auto"),
    "autoUpdate" := JBool(true)]

  /** Reading a property of a settings object. */
  function Prop(m: Settings, key: string): Option<Json> {
    if key in m then Some(m[key]) else None
  }

  // ---------------------------------------------------------------------------
  // Loading

  /** The decimal numeral of `n`, as JavaScript writes array indices. */
  function DecimalString(n: nat): (r: string)
    ensures |r| >= 1
    ensures forall i :: 0 <= i < |r| ==> '0' <= r[i] <= '9'
    decreases n
  {
    var digit := (('0' as int) + n % 10) as char;
    if n < 10 then [digit] else DecimalString(n / 10) + [digit]
  }

  /** The number a string of decimal digits denotes. */
  function DecimalValue(s: string): nat
    decreases |s|
  {
    if s == [] then 0
    else
      var d := s[|s| - 1] as int - '0' as int;
      DecimalValue(s[..|s| - 1]) * 10 + if 0 <= d then d else 0
  }

  /** Reading a numeral back gives its number, so two indices never share a numeral. */
  lemma {:induction false} DecimalRoundTrip(n: nat)
    ensures DecimalValue(DecimalString(n)) == n
    decreases n
  {
    var r := DecimalString(n);
    if n >= 10 {
      DecimalRoundTrip(n / 10);
      assert r[..|r| - 1] == DecimalString(n / 10);
    }
  }

  lemma DecimalInjective(i: nat, j: nat)
    requires DecimalString(i) == DecimalString(j)
    ensures i == j
  {
    DecimalRoundTrip(i);
    DecimalRoundTrip(j);
  }

  /** The index properties of a sequence of values: "0", "1", ... */
  function IndexProps(items: seq<Json>): Settings
    decreases |items|
  {
    if items == [] then map[]
    else IndexProps(items[..|items| - 1])[DecimalString(|items| - 1) := items[|items| - 1]]
  }

  /** Each index names its own element. */
  lemma {:induction false} IndexPropsAt(items: seq<Json>, i: nat)
    requires i < |items|
    ensures DecimalString(i) in IndexProps(items)
    ensures IndexProps(items)[DecimalString(i)] == items[i]
    decreases |items|
  {
    var n := |items| - 1;
    if i < n {
      IndexPropsAt(items[..n], i);
      if DecimalString(i) == DecimalString(n) {
        DecimalInjective(i, n);
      }
    }
  }

  /** And there are no other properties. */
  lemma {:induction false} IndexPropsKeys(items: seq<Json>, k: string)
    requires k in IndexProps(items)
    ensures exists i: nat :: i < |items| && k == DecimalString(i)
    decreases |items|
  {
    var n := |items| - 1;
    if k != DecimalString(n) {
      IndexPropsKeys(items[..n], k);
    }
  }

  /** The own enumerable properties object spread copies: an object's fields, the indices of an
      array or of a string's characters, and nothing for null, booleans and numbers. */
  function OwnProperties(v: Json): Settings {
    match v
    case JObject(fields) => fields
    case JArray(items) => IndexProps(items)
    case JString(s) => IndexProps(seq(|s|, i requires 0 <= i < |s| => JString([s[i]])))
    case _ => map[]
  }

  /** The legacy migration: a truthy `themeColor` without a truthy `themeMode` is replaced by
      `themeMode: "auto"`. Only objects can carry the two properties. */
  function Migrate(v: Json): Json {
    match v
    case JObject(f) =>
      if TruthyProp(Prop(f, "themeColor")) && !TruthyProp(Prop(f, "themeMode"))
      then JObject((f - {"themeColor"})["themeMode" := JString("auto")])
      else v
    case _ => v
  }

  /** What `JSON.parse` did with the stored text. */
  datatype ParseOutcome = SyntaxError | ParsedJson(value: Json)

  /** The settings the store starts with. `stored` is the text under the "settings" key; a
      missing or empty text, a parse error, and `null` (reading a property of it throws) all
      leave the defaults. Otherwise the migrated value's own properties override the defaults. */
  function LoadSettings(stored: Option<string>, parse: ParseOutcome): Settings {
    if stored.None? || stored.value == "" then Defaults
    else match parse
      case SyntaxError => Defaults
      case ParsedJson(v) => if v.JNull? then Defaults else Defaults + OwnProperties(Migrate(v))
  }

  /** The five default settings; with nothing stored the theme follows the system. */
  lemma DefaultSettings(parse: ParseOutcome, systemDark: bool)
    ensures Defaults.Keys == {"editorPath", "defaultTerminal", "locale", "themeMode", "autoUpdate"}
    ensures Defaults["editorPath"] == JString("code") && Defaults["defaultTerminal"] == JString("cmd")
    ensures Defaults["locale"] == JString("zh") && Defaults["autoUpdate"] == JBool(true)
    ensures IsDark(Prop(LoadSettings(None, parse), "themeMode"), systemDark) == systemDark
  {
  }

  /** A stored number, boolean or `null` adds no property. */
  lemma PrimitiveAddsNothing(stored: string, v: Json)
    requires stored != "" && (v.JNumber? || v.JBool? || v.JNull?)
    ensures LoadSettings(Some(stored), ParsedJson(v)) == Defaults
  {
    assert Defaults + map[] == Defaults;
  }

  /** Stored properties override the defaults one by one; properties not stored keep their
      default. */
  lemma StoredOverridesDefaults(stored: string, fields: map<string, Json>, key: string)
    requires stored != ""
    requires !(TruthyProp(Prop(fields, "themeColor")) && !TruthyProp(Prop(fields, "themeMode")))
    ensures var s := LoadSettings(Some(stored), ParsedJson(JObject(fields)));
      (key in fields ==> key in s && s[key] == fields[key])
      && (key !in fields && key in Defaults ==> key in s && s[key] == Defaults[key])
      && (key in s <==> key in fields || key in Defaults)
  {
  }

  /** Nothing usable stored: the defaults stay. */
  lemma NothingStoredKeepsDefaults(stored: Option<string>, parse: ParseOutcome)
    requires stored.None? || stored == Some("") || parse == SyntaxError || parse == ParsedJson(JNull)
    ensures LoadSettings(stored, parse) == Defaults
  {
  }

  /** Settings stored by an old version, with a theme colour and no theme mode, load with the
      automatic theme and without the colour. */
  lemma LegacyThemeColorMigrates(stored: string, fields: map<string, Json>)
    requires stored != ""
    requires TruthyProp(Prop(fields, "themeColor")) && !TruthyProp(Prop(fields, "themeMode"))
    ensures var s := LoadSettings(Some(stored), ParsedJson(JObject(fields)));
      "themeColor" !in s && "themeMode" in s && s["themeMode"] == JString("auto")
    ensures var s := LoadSettings(Some(stored), ParsedJson(JObject(fields)));
      forall k :: k in fields && k != "themeColor" && k != "themeMode" ==> k in s && s[k] == fields[k]
  {
    assert "themeColor" !in Defaults;
  }

  /** Migrating is idempotent: a migrated value needs no further migration. */
  lemma MigrateIdempotent(v: Json)
    ensures Migrate(Migrate(v)) == Migrate(v)
  {
    if v.JObject? && TruthyProp(Prop(v.fields, "themeColor")) && !TruthyProp(Prop(v.fields, "themeMode")) {
      var m := Migrate(v);
      assert Prop(m.fields, "themeColor").None?;
    }
  }

  /** A stored string spreads into one property per character, keyed by its index. */
  lemma StringSpreads(stored: string, s: string, i: nat)
    requires stored != "" && i < |s|
    ensures var loaded := LoadSettings(Some(stored), ParsedJson(JString(s)));
      DecimalString(i) in loaded && loaded[DecimalString(i)] == JString([s[i]])
  {
    var chars := seq(|s|, k requires 0 <= k < |s| => JString([s[k]]));
    IndexPropsAt(chars, i);
  }

  // ---------------------------------------------------------------------------
  // Theme

  /** The dark class is on for the dark theme, and for the automatic theme when the system
      prefers dark. `mode` is the stored `themeMode`, `undefined` when absent. */
  predicate IsDark(mode: Option<Json>, systemDark: bool) {
    mode == Some(JString("dark")) || (mode == Some(JString("auto")) && systemDark)
  }

  /** Only the dark and automatic themes can be dark, the light theme and every other value never,
      and only the automatic theme depends on the system's preference. */
  lemma DarkRule(mode: Option<Json>)
    ensures IsDark(mode, true) <==> mode == Some(JString("dark")) || mode == Some(JString("auto"))
    ensures IsDark(mode, false) <==> mode == Some(JString("dark"))
    ensures IsDark(mode, true) != IsDark(mode, false) <==> mode == Some(JString("auto"))
  {
  }

  // ---------------------------------------------------------------------------
  // The store

  class Store {
    var settings: Settings
    var availableTerminals: seq<TerminalInfo>
    /** The locale the i18n instance uses. */
    var i18nLocale: Json
    /** The page's root element carries the `dark` class. */
    var darkClass: bool

    /** Store start-up: load the stored settings, then apply them. The first terminal
        detection is a later call of FetchAvailableTerminals. */
    constructor (stored: Option<string>, parse: ParseOutcome, systemDark: bool, initialLocale: Json)
      ensures settings == LoadSettings(stored, parse)
      ensures availableTerminals == []
      ensures i18nLocale == (var l := Prop(settings, "locale"); if TruthyProp(l) then l.value else initialLocale)
      ensures darkClass == IsDark(Prop(settings, "themeMode"), systemDark)
    {
      settings := LoadSettings(stored, parse);
      availableTerminals := [];
      var l := Prop(LoadSettings(stored, parse), "locale");
      i18nLocale := if TruthyProp(l) then l.value else initialLocale;
      darkClass := IsDark(Prop(LoadSettings(stored, parse), "themeMode"), systemDark);
    }

    /** fetchAvailableTerminals: detection runs only when the list is empty or `force` is set,
        and a failed detection leaves the list. `detected` is what detection would give. */
    method FetchAvailableTerminals(force: bool, detected: Result<seq<TerminalInfo>>) returns (r: seq<TerminalInfo>, probed: bool)
      modifies this
      ensures probed <==> old(availableTerminals) == [] || force
      ensures availableTerminals == if probed && detected.Success? then detected.value else old(availableTerminals)
      ensures r == availableTerminals
      ensures settings == old(settings) && i18nLocale == old(i18nLocale) && darkClass == old(darkClass)
    {
      probed := |availableTerminals| == 0 || force;
      if probed {
        if detected.Success? {
          availableTerminals := detected.value;
        }
      }
      r := availableTerminals;
    }

    /** updateTheme, with the system's preference given. */
    method UpdateTheme(systemDark: bool)
      modifies this
      ensures darkClass == IsDark(Prop(settings, "themeMode"), systemDark)
      ensures settings == old(settings) && availableTerminals == old(availableTerminals) && i18nLocale == old(i18nLocale)
    {
      var mode := Prop(settings, "themeMode");
      darkClass := mode == Some(JString("dark")) || (mode == Some(JString("auto")) && systemDark);
    }

    /** The colour-scheme listener: the theme follows the system only under the automatic theme. */
    method OnSystemThemeChange(matches: bool)
      modifies this
      ensures darkClass == if Prop(settings, "themeMode") == Some(JString("auto")) then matches else old(darkClass)
      ensures settings == old(settings) && availableTerminals == old(availableTerminals) && i18nLocale == old(i18nLocale)
    {
      if Prop(settings, "themeMode") == Some(JString("auto")) {
        UpdateTheme(matches);
      }
    }

    /** applySettings: a truthy locale goes to i18n, then the theme is updated. */
    method ApplySettings(systemDark: bool)
      modifies this
      ensures var l := Prop(settings, "locale");
        i18nLocale == if TruthyProp(l) then l.value else old(i18nLocale)
      ensures darkClass == IsDark(Prop(settings, "themeMode"), systemDark)
      ensures settings == old(settings) && availableTerminals == old(availableTerminals)
    {
      var l := Prop(settings, "locale");
      if TruthyProp(l) {
        i18nLocale := l.value;
      }
      UpdateTheme(systemDark);
    }

    /** The settings watcher: a change is applied at once. */
    method ChangeSettings(next: Settings, systemDark: bool)
      modifies this
      ensures settings == next
      ensures var l := Prop(next, "locale");
        i18nLocale == if TruthyProp(l) then l.value else old(i18nLocale)
      ensures darkClass == IsDark(Prop(next, "themeMode"), systemDark)
      ensures availableTerminals == old(availableTerminals)
    {
      settings := next;
      ApplySettings(systemDark);
    }
  }
}
