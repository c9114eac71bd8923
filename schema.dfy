/**
 * The settings schema the backend registers with the host: one entry for the
 * background colour and nine per button slot, each naming its setting kind,
 * its caption and description, and its default value.
 */
module Schema {
  import opened Wrappers
  import opened Js
  import opened Tables
  import opened Setup

  /** The setting kinds the host renders: a toggle, a text field, a colour picker, a drop-down. */
  datatype SettingType = BooleanSetting | StringSetting | ColorSetting | SelectSetting

  /** One choice of a drop-down. */
  datatype SelectOption = SelectOption(value: string, caption: string)

  /** One registered setting; `options` is present on drop-downs only. */
  datatype SettingEntry = SettingEntry(
    id: string,
    settingType: SettingType,
    caption: string,
    description: string,
    value: JsValue,
    options: Option<seq<SelectOption>>)

  /** Reading a dictionary key, `undefined` when it is absent. */
  function Lookup(d: map<string, JsValue>, k: string): (v: JsValue)
    ensures k in d ==> v == d[k]
    ensures k !in d ==> v == Undefined
  {
    if k in d then d[k] else Undefined
  }

  const MethodOptions: seq<SelectOption> := [
    SelectOption("GET", "GET"), SelectOption("POST", "POST"), SelectOption("PUT", "PUT"),
    SelectOption("PATCH", "PATCH"), SelectOption("DELETE", "DELETE")]

  const AuthOptions: seq<SelectOption> := [
    SelectOption("none", "None"), SelectOption("bearer", "Bearer Token"), SelectOption("basic", "Basic Auth")]

  /** The values a drop-down offers, in its order. */
  function OptionValues(os: seq<SelectOption>): (vs: seq<string>)
    ensures |vs| == |os| && forall k :: 0 <= k < |os| ==> vs[k] == os[k].value
  {
    if os == [] then [] else [os[0].value] + OptionValues(os[1..])
  }

  // -------------------------------------------------------------- entries

  /** The global background colour setting. */
  function BackgroundEntry(defaults: map<string, JsValue>, id: string): SettingEntry {
    SettingEntry(id, ColorSetting, "\U{1F3A8} Background Color",
      "Background color for ActionThing interface", Lookup(defaults, id), None)
  }

  /** The entry the loop writes for field `f` of slot `i`, registered under `id`. */
  function Entry(defaults: map<string, JsValue>, id: string, i: nat, f: Field): SettingEntry {
    var n := NatToDecimal(i);
    match f
    case Enabled => SettingEntry(id, BooleanSetting, "\U{1F518} Enable Button " + n,
      "Enable or disable action button " + n, Lookup(defaults, id), None)
    case Label => SettingEntry(id, StringSetting, "\U{1F4DD} Button " + n + " Label",
      "Text displayed on button " + n, Lookup(defaults, id), None)
    case Url => SettingEntry(id, StringSetting, "\U{1F310} Button " + n + " URL",
      "Target webhook/API endpoint for button " + n, Lookup(defaults, id), None)
    case Color => SettingEntry(id, ColorSetting, "\U{1F3A8} Button " + n + " Color",
      "Background color for button " + n, Lookup(defaults, id), None)
    case Method => SettingEntry(id, SelectSetting, "\U{1F4E1} Button " + n + " HTTP Method",
      "HTTP method for button " + n + " request", Lookup(defaults, id), Some(MethodOptions))
    case Auth => SettingEntry(id, SelectSetting, "\U{1F510} Button " + n + " Authentication",
      "Authentication type for button " + n, Lookup(defaults, id), Some(AuthOptions))
    case Token => SettingEntry(id, StringSetting, "\U{1F511} Button " + n + " Auth Token/Password",
      "Authentication token or password for button " + n, Lookup(defaults, id), None)
    case Payload => SettingEntry(id, StringSetting, "\U{1F4E6} Button " + n + " Custom Payload",
      "Custom JSON payload for button " + n + " (leave empty for default)", Lookup(defaults, id), None)
    case Headers => SettingEntry(id, StringSetting, "\U{1F4CB} Button " + n + " Custom Headers",
      "Custom JSON headers for button " + n + " (leave empty for default)", Lookup(defaults, id), None)
  }

  /** The entries of a key scheme, as a function of slot and field. */
  function EntryAt(defaults: map<string, JsValue>, key: (nat, Field) -> string): (nat, Field) -> SettingEntry {
    (j: nat, g: Field) => Entry(defaults, key(j, g), j, g)
  }

  /** The schema after the background entry and slots `1..n`. */
  function SettingsTable(n: nat, defaults: map<string, JsValue>): map<string, SettingEntry> {
    Table(n, map[BackgroundId := BackgroundEntry(defaults, BackgroundId)], SchemaFields, IdKey, EntryAt(defaults, IdKey))
  }

  /** A scheme's entry function gives, at a slot and field, that field's entry under the scheme's key. */
  lemma EntryAtIs(defaults: map<string, JsValue>, key: (nat, Field) -> string, i: nat, f: Field)
    ensures EntryAt(defaults, key)(i, f) == Entry(defaults, key(i, f), i, f)
  {
  }

  /** One pass of the schema loop body, entry by entry, for any key scheme. */
  lemma SettingsRowValues(m: map<string, SettingEntry>, i: nat, defaults: map<string, JsValue>, key: (nat, Field) -> string)
    ensures Row(m, i, SchemaFields, key, EntryAt(defaults, key)) ==
      m[key(i, Enabled) := Entry(defaults, key(i, Enabled), i, Enabled)]
       [key(i, Label) := Entry(defaults, key(i, Label), i, Label)]
       [key(i, Url) := Entry(defaults, key(i, Url), i, Url)]
       [key(i, Color) := Entry(defaults, key(i, Color), i, Color)]
       [key(i, Method) := Entry(defaults, key(i, Method), i, Method)]
       [key(i, Auth) := Entry(defaults, key(i, Auth), i, Auth)]
       [key(i, Token) := Entry(defaults, key(i, Token), i, Token)]
       [key(i, Payload) := Entry(defaults, key(i, Payload), i, Payload)]
       [key(i, Headers) := Entry(defaults, key(i, Headers), i, Headers)]
  {
    SchemaRowUnrolled(m, i, key, EntryAt(defaults, key));
    EntryAtIs(defaults, key, i, Enabled);
    EntryAtIs(defaults, key, i, Label);
    EntryAtIs(defaults, key, i, Url);
    EntryAtIs(defaults, key, i, Color);
    EntryAtIs(defaults, key, i, Method);
    EntryAtIs(defaults, key, i, Auth);
    EntryAtIs(defaults, key, i, Token);
    EntryAtIs(defaults, key, i, Payload);
    EntryAtIs(defaults, key, i, Headers);
  }

  /** Slot `i` adds its nine entries to the schema of the slots before it. */
  lemma SettingsTableStep(i: nat, defaults: map<string, JsValue>)
    requires 1 <= i
    ensures var m := SettingsTable(i - 1, defaults);
      SettingsTable(i, defaults) ==
      m[IdKey(i, Enabled) := Entry(defaults, IdKey(i, Enabled), i, Enabled)]
       [IdKey(i, Label) := Entry(defaults, IdKey(i, Label), i, Label)]
       [IdKey(i, Url) := Entry(defaults, IdKey(i, Url), i, Url)]
       [IdKey(i, Color) := Entry(defaults, IdKey(i, Color), i, Color)]
       [IdKey(i, Method) := Entry(defaults, IdKey(i, Method), i, Method)]
       [IdKey(i, Auth) := Entry(defaults, IdKey(i, Auth), i, Auth)]
       [IdKey(i, Token) := Entry(defaults, IdKey(i, Token), i, Token)]
       [IdKey(i, Payload) := Entry(defaults, IdKey(i, Payload), i, Payload)]
       [IdKey(i, Headers) := Entry(defaults, IdKey(i, Headers), i, Headers)]
  {
    SettingsRowValues(SettingsTable(i - 1, defaults), i, defaults, IdKey);
  }

  /** The IDs the schema loop reads for slot `i`, in the order it reads them. */
  lemma SlotIds(ids: map<string, string>, i: nat)
    requires MapsNamesToIds(ids) && 1 <= i <= ButtonSlots
    ensures ConstKey(i, Enabled) in ids && ids[ConstKey(i, Enabled)] == IdKey(i, Enabled)
    ensures ConstKey(i, Label) in ids && ids[ConstKey(i, Label)] == IdKey(i, Label)
    ensures ConstKey(i, Url) in ids && ids[ConstKey(i, Url)] == IdKey(i, Url)
    ensures ConstKey(i, Color) in ids && ids[ConstKey(i, Color)] == IdKey(i, Color)
    ensures ConstKey(i, Method) in ids && ids[ConstKey(i, Method)] == IdKey(i, Method)
    ensures ConstKey(i, Auth) in ids && ids[ConstKey(i, Auth)] == IdKey(i, Auth)
    ensures ConstKey(i, Token) in ids && ids[ConstKey(i, Token)] == IdKey(i, Token)
    ensures ConstKey(i, Payload) in ids && ids[ConstKey(i, Payload)] == IdKey(i, Payload)
    ensures ConstKey(i, Headers) in ids && ids[ConstKey(i, Headers)] == IdKey(i, Headers)
  {
  }

  /**
   * `generateDeskThingSettings`: the background entry, then nine entries per
   * slot, each under the ID the ID table gives its constant name.
   */
  method GenerateDeskThingSettings(ids: map<string, string>, defaults: map<string, JsValue>)
    returns (settings: map<string, SettingEntry>)
    requires MapsNamesToIds(ids)
    ensures settings == SettingsTable(ButtonSlots, defaults)
  {
    settings := map[];
    var backgroundId := ids[BackgroundConst];
    settings := settings[backgroundId := BackgroundEntry(defaults, backgroundId)];
    var i := 1;
    while i <= ButtonSlots
      invariant 1 <= i <= ButtonSlots + 1
      invariant settings == SettingsTable(i - 1, defaults)
    {
      SlotIds(ids, i);
      var enabledId := ids[ConstKey(i, Enabled)];
      var labelId := ids[ConstKey(i, Label)];
      var urlId := ids[ConstKey(i, Url)];
      var colorId := ids[ConstKey(i, Color)];
      var methodId := ids[ConstKey(i, Method)];
      var authId := ids[ConstKey(i, Auth)];
      var tokenId := ids[ConstKey(i, Token)];
      var payloadId := ids[ConstKey(i, Payload)];
      var headersId := ids[ConstKey(i, Headers)];
      SettingsTableStep(i, defaults);
      settings := settings[enabledId := Entry(defaults, enabledId, i, Enabled)];
      settings := settings[labelId := Entry(defaults, labelId, i, Label)];
      settings := settings[urlId := Entry(defaults, urlId, i, Url)];
      settings := settings[colorId := Entry(defaults, colorId, i, Color)];
      settings := settings[methodId := Entry(defaults, methodId, i, Method)];
      settings := settings[authId := Entry(defaults, authId, i, Auth)];
      settings := settings[tokenId := Entry(defaults, tokenId, i, Token)];
      settings := settings[payloadId := Entry(defaults, payloadId, i, Payload)];
      settings := settings[headersId := Entry(defaults, headersId, i, Headers)];
      i := i + 1;
    }
  }

  // ------------------------------------------------------------ properties

  /** After slots `1..n`, each slot's setting IDs hold that field's entry. */
  lemma SettingsTableLookup(n: nat, defaults: map<string, JsValue>, i: nat, f: Field)
    requires n <= 9 && 1 <= i <= n
    ensures IdKey(i, f) in SettingsTable(n, defaults)
    ensures SettingsTable(n, defaults)[IdKey(i, f)] == Entry(defaults, IdKey(i, f), i, f)
  {
    IdKeyInjective();
    SchemaFieldsComplete(f);
    TableLookup(n, map[BackgroundId := BackgroundEntry(defaults, BackgroundId)], SchemaFields,
      IdKey, EntryAt(defaults, IdKey), i, f);
    EntryAtIs(defaults, IdKey, i, f);
  }

  /** The background entry is registered under its own ID whatever the number of slots. */
  lemma SettingsTableBackground(n: nat, defaults: map<string, JsValue>)
    requires n <= 9
    ensures BackgroundId in SettingsTable(n, defaults)
    ensures SettingsTable(n, defaults)[BackgroundId] == BackgroundEntry(defaults, BackgroundId)
  {
    BackgroundIdApart(BackgroundEntry(defaults, BackgroundId));
    TableKeepsBase(n, map[BackgroundId := BackgroundEntry(defaults, BackgroundId)], SchemaFields,
      IdKey, EntryAt(defaults, IdKey), BackgroundId);
  }

  /** The schema registers no other IDs. */
  lemma SettingsTableKeys(n: nat, defaults: map<string, JsValue>, k: string)
    requires k in SettingsTable(n, defaults)
    ensures k == BackgroundId || exists j, g :: 1 <= j <= n && k == IdKey(j, g)
  {
    TableKeys(n, map[BackgroundId := BackgroundEntry(defaults, BackgroundId)], SchemaFields,
      IdKey, EntryAt(defaults, IdKey), k);
  }

  /** All IDs are distinct: `1 + 9n` entries, 55 for the six slots. */
  lemma SettingsTableSize(n: nat, defaults: map<string, JsValue>)
    requires n <= 9
    ensures |SettingsTable(n, defaults)| == 1 + 9 * n
  {
    IdKeyInjective();
    BackgroundIdApart(BackgroundEntry(defaults, BackgroundId));
    SchemaFieldsComplete(Enabled);
    TableSize(n, map[BackgroundId := BackgroundEntry(defaults, BackgroundId)], SchemaFields,
      IdKey, EntryAt(defaults, IdKey));
  }

  /**
   * Whatever its field, an entry carries the ID it is registered under and the
   * default stored under that ID, and has options exactly when it is a drop-down.
   */
  lemma EntryShape(defaults: map<string, JsValue>, id: string, i: nat, f: Field)
    ensures var e := Entry(defaults, id, i, f);
      && e.id == id && e.value == Lookup(defaults, id)
      && (e.options.Some? <==> e.settingType == SelectSetting)
      && (e.settingType == SelectSetting <==> f == Method || f == Auth)
      && (e.settingType == BooleanSetting <==> f == Enabled)
      && (e.settingType == ColorSetting <==> f == Color)
      && (f == Method ==> e.options == Some(MethodOptions))
      && (f == Auth ==> e.options == Some(AuthOptions))
  {
    match f
    case Enabled =>
    case Label =>
    case Url =>
    case Color =>
    case Method =>
    case Auth =>
    case Token =>
    case Payload =>
    case Headers =>
  }

  /** Every registered entry names its own ID, carries the default under that ID, and has options exactly when it is a drop-down. */
  lemma SettingsEntriesSelfDescribing(n: nat, defaults: map<string, JsValue>, k: string)
    requires n <= 9 && k in SettingsTable(n, defaults)
    ensures var e := SettingsTable(n, defaults)[k];
      e.id == k && e.value == Lookup(defaults, k) && (e.options.Some? <==> e.settingType == SelectSetting)
  {
    SettingsTableKeys(n, defaults, k);
    if k == BackgroundId {
      SettingsTableBackground(n, defaults);
    } else {
      var j, g :| 1 <= j <= n && k == IdKey(j, g);
      SettingsTableLookup(n, defaults, j, g);
      EntryShape(defaults, k, j, g);
    }
  }

  /**
   * The schema registered for the six slots has exactly the IDs of the default
   * settings, and each entry's value is the default stored under its ID.
   */
  lemma SchemaMatchesDefaults()
    ensures var s, d := SettingsTable(ButtonSlots, DefaultsTable(ButtonSlots)), DefaultsTable(ButtonSlots);
      && s.Keys == d.Keys
      && forall k :: k in s ==> s[k].value == d[k]
  {
    var s, d := SettingsTable(ButtonSlots, DefaultsTable(ButtonSlots)), DefaultsTable(ButtonSlots);
    forall k | k in s ensures k in d && s[k].value == d[k] {
      SettingsEntriesSelfDescribing(ButtonSlots, d, k);
      SettingsTableKeys(ButtonSlots, d, k);
      if k == BackgroundId {
        DefaultsTableBackground(ButtonSlots);
      } else {
        var j, g :| 1 <= j <= ButtonSlots && k == IdKey(j, g);
        DefaultsTableLookup(ButtonSlots, j, g);
      }
    }
    forall k | k in d ensures k in s {
      DefaultsTableKeys(ButtonSlots, k);
      if k == BackgroundId {
        SettingsTableBackground(ButtonSlots, d);
      } else {
        var j, g :| 1 <= j <= ButtonSlots && k == IdKey(j, g);
        SettingsTableLookup(ButtonSlots, d, j, g);
      }
    }
  }

  /** The drop-downs offer the five request methods and the three authentication kinds, in this order. */
  lemma OptionLists()
    ensures OptionValues(MethodOptions) == ["GET", "POST", "PUT", "PATCH", "DELETE"]
    ensures OptionValues(AuthOptions) == ["none", "bearer", "basic"]
  {
    assert MethodOptions[1..][1..][1..][1..][1..] == [];
    assert AuthOptions[1..][1..][1..] == [];
  }

  /** The default method and authentication of every slot are among the choices its drop-downs offer. */
  lemma DefaultsAmongOptions(i: nat)
    requires 1 <= i <= ButtonSlots
    ensures DefaultValue(i, Method).Str? && DefaultValue(i, Method).s in OptionValues(MethodOptions)
    ensures DefaultValue(i, Auth).Str? && DefaultValue(i, Auth).s in OptionValues(AuthOptions)
  {
    OptionLists();
    assert OptionValues(MethodOptions)[1] == "POST";
    assert OptionValues(AuthOptions)[0] == "none";
  }

  // ----------------------------------------------------------------- setup

  /** What `setupSettings` returns when registration succeeds. */
  datatype SetupOutcome = SetupOutcome(
    success: bool,
    settings: map<string, SettingEntry>,
    defaultSettings: map<string, JsValue>)

  /**
   * `setupSettings`: builds the ID table, the defaults and the schema, hands the
   * schema to the host's `initSettings` and reports it. `initError` stands for
   * the exception `initSettings` throws, if any, which is rethrown.
   */
  method SetupSettings(initError: Option<JsValue>)
    returns (registered: map<string, SettingEntry>, r: Result<SetupOutcome, JsValue>)
    ensures registered == SettingsTable(ButtonSlots, DefaultsTable(ButtonSlots))
    ensures initError.Some? ==> r == Failure(initError.value)
    ensures initError.None? ==> r == Success(SetupOutcome(true, registered, DefaultsTable(ButtonSlots)))
  {
    var ids := GenerateButtonSettingIDs();
    IdTableMapsNamesToIds();
    var defaults := GenerateDefaultSettings(ids);
    registered := GenerateDeskThingSettings(ids, defaults);
    match initError
    case Some(e) => r := Failure(e);
    case None => r := Success(SetupOutcome(true, registered, defaults));
  }
}
