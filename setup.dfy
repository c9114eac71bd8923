/**
 * The backend's settings registration: the table of setting IDs, the default
 * value of every setting, and the settings schema handed to the host, all
 * generated slot by slot for the six buttons.
 */
module Setup {
  import opened Wrappers
  import opened Js
  import App
  import opened Tables

  const ButtonSlots := 6
  const BackgroundConst := "BACKGROUND_COLOR"
  const BackgroundId := "backgroundColor"
  const BackgroundDefault := "#1f2937"
  const DefaultUrl := "https://httpbin.org/post"
  const DefaultHeaders := "{\"Content-Type\": \"application/json\"}"
  const ButtonColors: seq<string> := ["#3b82f6", "#10b981", "#f59e0b", "#ef4444", "#8b5cf6", "#06b6d4"]

  /** The upper-case part of a constant name, such as `LABEL` in `BUTTON_3_LABEL`. */
  function ConstSuffix(f: Field): string {
    match f
    case Enabled => "ENABLED"
    case Label => "LABEL"
    case Url => "URL"
    case Method => "METHOD"
    case Auth => "AUTH"
    case Token => "TOKEN"
    case Payload => "PAYLOAD"
    case Headers => "HEADERS"
    case Color => "COLOR"
  }

  /** The camel-case part of a setting ID, such as `Label` in `button3Label`. */
  function IdSuffix(f: Field): string {
    match f
    case Enabled => "Enabled"
    case Label => "Label"
    case Url => "Url"
    case Method => "Method"
    case Auth => "Auth"
    case Token => "Token"
    case Payload => "Payload"
    case Headers => "Headers"
    case Color => "Color"
  }

  /** `BUTTON_${i}_${SUFFIX}` */
  function ConstKey(i: nat, f: Field): string {
    "BUTTON_" + NatToDecimal(i) + "_" + ConstSuffix(f)
  }

  /** `button${i}${Suffix}` */
  function IdKey(i: nat, f: Field): string {
    "button" + NatToDecimal(i) + IdSuffix(f)
  }

  // ------------------------------------------------------------ uniqueness

  lemma ConstSuffixInjective(f: Field, g: Field)
    requires ConstSuffix(f) == ConstSuffix(g)
    ensures f == g
  {
    var s, t := ConstSuffix(f), ConstSuffix(g);
    assert |s| == |t| && s[0] == t[0] && s[1] == t[1];
  }

  lemma IdSuffixInjective(f: Field, g: Field)
    requires IdSuffix(f) == IdSuffix(g)
    ensures f == g
  {
    var s, t := IdSuffix(f), IdSuffix(g);
    assert |s| == |t| && s[0] == t[0] && s[1] == t[1];
  }

  /** Distinct one-digit slots or fields give distinct constant names. */
  lemma ConstKeyInjective()
    ensures Injective(ConstKey)
  {
    forall i, f, j, g | 1 <= i <= 9 && 1 <= j <= 9 && ConstKey(i, f) == ConstKey(j, g)
      ensures i == j && f == g
    {
      var a, b := ConstKey(i, f), ConstKey(j, g);
      assert a[7] == DigitChar(i) && b[7] == DigitChar(j);
      assert a[9..] == ConstSuffix(f) && b[9..] == ConstSuffix(g);
      ConstSuffixInjective(f, g);
    }
  }

  /** Distinct one-digit slots or fields give distinct setting IDs. */
  lemma IdKeyInjective()
    ensures Injective(IdKey)
  {
    forall i, f, j, g | 1 <= i <= 9 && 1 <= j <= 9 && IdKey(i, f) == IdKey(j, g)
      ensures i == j && f == g
    {
      var a, b := IdKey(i, f), IdKey(j, g);
      assert a[6] == DigitChar(i) && b[6] == DigitChar(j);
      assert a[7..] == IdSuffix(f) && b[7..] == IdSuffix(g);
      IdSuffixInjective(f, g);
    }
  }

  /** The background entry's constant name is not a button name. */
  lemma BackgroundConstApart<V>(x: V)
    ensures Apart(map[BackgroundConst := x], ConstKey)
  {
    forall i, f ensures ConstKey(i, f) != BackgroundConst {
      assert ConstKey(i, f)[1] == 'U';
    }
  }

  /** The background setting ID is not a button setting ID. */
  lemma BackgroundIdApart<V>(y: V)
    ensures Apart(map[BackgroundId := y], IdKey)
  {
    forall i, f ensures IdKey(i, f) != BackgroundId {
      assert IdKey(i, f)[1] == 'u';
    }
  }

  /** The client reads a button setting under exactly the ID generated for it here. */
  lemma IdKeyIsClientKey(i: nat, f: Field)
    ensures IdKey(i, f) == App.SettingKey(i, IdSuffix(f))
  {
  }

  // -------------------------------------------------------------- ID table

  /** The ID table after slots `1..n`. */
  function IdTable(n: nat): map<string, string> {
    Table(n, map[BackgroundConst := BackgroundId], Fields, ConstKey, IdKey)
  }

  /** After slots `1..n`, each `BUTTON_i_SUFFIX` maps to `button{i}Suffix`. */
  lemma IdTableLookup(n: nat, i: nat, f: Field)
    requires n <= 9 && 1 <= i <= n
    ensures ConstKey(i, f) in IdTable(n) && IdTable(n)[ConstKey(i, f)] == IdKey(i, f)
  {
    ConstKeyInjective();
    FieldsComplete(f);
    TableLookup(n, map[BackgroundConst := BackgroundId], Fields, ConstKey, IdKey, i, f);
  }

  /** `BACKGROUND_COLOR` maps to `backgroundColor` whatever the number of slots. */
  lemma IdTableBackground(n: nat)
    requires n <= 9
    ensures BackgroundConst in IdTable(n) && IdTable(n)[BackgroundConst] == BackgroundId
  {
    BackgroundConstApart(BackgroundId);
    TableKeepsBase(n, map[BackgroundConst := BackgroundId], Fields, ConstKey, IdKey, BackgroundConst);
  }

  /** The table holds no other names. */
  lemma IdTableKeys(n: nat, k: string)
    requires k in IdTable(n)
    ensures k == BackgroundConst || exists j, g :: 1 <= j <= n && k == ConstKey(j, g)
  {
    TableKeys(n, map[BackgroundConst := BackgroundId], Fields, ConstKey, IdKey, k);
  }

  /** All names are distinct: `1 + 9n` entries, 55 for the six slots. */
  lemma IdTableSize(n: nat)
    requires n <= 9
    ensures |IdTable(n)| == 1 + 9 * n
  {
    ConstKeyInjective();
    BackgroundConstApart(BackgroundId);
    FieldsComplete(Enabled);
    TableSize(n, map[BackgroundConst := BackgroundId], Fields, ConstKey, IdKey);
  }

  /** `generateButtonSettingIDs` */
  method GenerateButtonSettingIDs() returns (ids: map<string, string>)
    ensures ids == IdTable(ButtonSlots)
  {
    ids := map[BackgroundConst := BackgroundId];
    var i := 1;
    while i <= ButtonSlots
      invariant 1 <= i <= ButtonSlots + 1
      invariant ids == IdTable(i - 1)
    {
      RowUnrolled(ids, i, ConstKey, IdKey);
      ids := ids[ConstKey(i, Enabled) := IdKey(i, Enabled)];
      ids := ids[ConstKey(i, Label) := IdKey(i, Label)];
      ids := ids[ConstKey(i, Url) := IdKey(i, Url)];
      ids := ids[ConstKey(i, Method) := IdKey(i, Method)];
      ids := ids[ConstKey(i, Auth) := IdKey(i, Auth)];
      ids := ids[ConstKey(i, Token) := IdKey(i, Token)];
      ids := ids[ConstKey(i, Payload) := IdKey(i, Payload)];
      ids := ids[ConstKey(i, Headers) := IdKey(i, Headers)];
      ids := ids[ConstKey(i, Color) := IdKey(i, Color)];
      i := i + 1;
    }
  }

  // -------------------------------------------------------------- defaults

  /** The default value of field `f` of slot `i`; `buttonColors[i - 1]` is `undefined` past the palette. */
  function DefaultValue(i: nat, f: Field): JsValue {
    match f
    case Enabled => Bool(false)
    case Label => Str("Action " + NatToDecimal(i))
    case Url => Str(DefaultUrl)
    case Method => Str("POST")
    case Auth => Str("none")
    case Token => Str("")
    case Payload => Str("{\"message\": \"Action " + NatToDecimal(i) + " triggered\"}")
    case Headers => Str(DefaultHeaders)
    case Color => if 1 <= i <= |ButtonColors| then Str(ButtonColors[i - 1]) else Undefined
  }

  /** The defaults after slots `1..n`. */
  function DefaultsTable(n: nat): map<string, JsValue> {
    Table(n, map[BackgroundId := Str(BackgroundDefault)], Fields, IdKey, DefaultValue)
  }

  /** After slots `1..n`, each slot's setting IDs hold their defaults. */
  lemma DefaultsTableLookup(n: nat, i: nat, f: Field)
    requires n <= 9 && 1 <= i <= n
    ensures IdKey(i, f) in DefaultsTable(n) && DefaultsTable(n)[IdKey(i, f)] == DefaultValue(i, f)
  {
    IdKeyInjective();
    FieldsComplete(f);
    TableLookup(n, map[BackgroundId := Str(BackgroundDefault)], Fields, IdKey, DefaultValue, i, f);
  }

  /** The background default is `#1f2937`. */
  lemma DefaultsTableBackground(n: nat)
    requires n <= 9
    ensures BackgroundId in DefaultsTable(n) && DefaultsTable(n)[BackgroundId] == Str(BackgroundDefault)
  {
    BackgroundIdApart(Str(BackgroundDefault));
    TableKeepsBase(n, map[BackgroundId := Str(BackgroundDefault)], Fields, IdKey, DefaultValue, BackgroundId);
  }

  /** The defaults hold no other IDs. */
  lemma DefaultsTableKeys(n: nat, k: string)
    requires k in DefaultsTable(n)
    ensures k == BackgroundId || exists j, g :: 1 <= j <= n && k == IdKey(j, g)
  {
    TableKeys(n, map[BackgroundId := Str(BackgroundDefault)], Fields, IdKey, DefaultValue, k);
  }

  /** All IDs are distinct: `1 + 9n` defaults, 55 for the six slots. */
  lemma DefaultsTableSize(n: nat)
    requires n <= 9
    ensures |DefaultsTable(n)| == 1 + 9 * n
  {
    IdKeyInjective();
    BackgroundIdApart(Str(BackgroundDefault));
    FieldsComplete(Enabled);
    TableSize(n, map[BackgroundId := Str(BackgroundDefault)], Fields, IdKey, DefaultValue);
  }

  /** The documented defaults; the colours are the ones the client falls back to. */
  lemma DefaultValues(i: nat)
    requires 1 <= i <= ButtonSlots
    ensures DefaultValue(i, Enabled) == Bool(false)
    ensures DefaultValue(i, Label) == Str("Action " + NatToDecimal(i))
    ensures DefaultValue(i, Url) == Str("https://httpbin.org/post")
    ensures DefaultValue(i, Method) == Str("POST") && DefaultValue(i, Auth) == Str("none")
    ensures DefaultValue(i, Token) == Str("")
    ensures DefaultValue(i, Payload) == Str("{\"message\": \"Action " + NatToDecimal(i) + " triggered\"}")
    ensures DefaultValue(i, Headers) == Str("{\"Content-Type\": \"application/json\"}")
    ensures DefaultValue(i, Color) == Str(App.DefaultColors[i - 1])
  {
  }

  /** The constant names of the six slots and the background map to their setting IDs. */
  ghost predicate MapsNamesToIds(ids: map<string, string>) {
    && BackgroundConst in ids && ids[BackgroundConst] == BackgroundId
    && forall i, f :: 1 <= i <= ButtonSlots ==> ConstKey(i, f) in ids && ids[ConstKey(i, f)] == IdKey(i, f)
  }

  /** The generated ID table is such a table. */
  lemma IdTableMapsNamesToIds()
    ensures MapsNamesToIds(IdTable(ButtonSlots))
  {
    IdTableBackground(ButtonSlots);
    forall i, f | 1 <= i <= ButtonSlots
      ensures ConstKey(i, f) in IdTable(ButtonSlots) && IdTable(ButtonSlots)[ConstKey(i, f)] == IdKey(i, f)
    {
      IdTableLookup(ButtonSlots, i, f);
    }
  }

  /** Slot `i`'s row of defaults, written out field by field. */
  lemma DefaultsRowValues(m: map<string, JsValue>, i: nat, key: (nat, Field) -> string)
    requires 1 <= i <= ButtonSlots
    ensures Row(m, i, Fields, key, DefaultValue) ==
      m[key(i, Enabled) := Bool(false)]
       [key(i, Label) := Str("Action " + NatToDecimal(i))]
       [key(i, Url) := Str(DefaultUrl)]
       [key(i, Method) := Str("POST")]
       [key(i, Auth) := Str("none")]
       [key(i, Token) := Str("")]
       [key(i, Payload) := Str("{\"message\": \"Action " + NatToDecimal(i) + " triggered\"}")]
       [key(i, Headers) := Str(DefaultHeaders)]
       [key(i, Color) := Str(ButtonColors[i - 1])]
  {
    RowUnrolled(m, i, key, DefaultValue);
  }

  /**
   * `generateDefaultSettings`: each default is stored under the ID that the ID
   * table gives its constant name.
   */
  method GenerateDefaultSettings(ids: map<string, string>) returns (defaults: map<string, JsValue>)
    requires MapsNamesToIds(ids)
    ensures defaults == DefaultsTable(ButtonSlots)
  {
    defaults := map[ids[BackgroundConst] := Str(BackgroundDefault)];
    var buttonColors := ButtonColors;
    var i := 1;
    while i <= ButtonSlots
      invariant 1 <= i <= ButtonSlots + 1
      invariant defaults == DefaultsTable(i - 1)
    {
      DefaultsRowValues(defaults, i, IdKey);
      assert ids[ConstKey(i, Enabled)] == IdKey(i, Enabled) && ids[ConstKey(i, Label)] == IdKey(i, Label);
      assert ids[ConstKey(i, Url)] == IdKey(i, Url) && ids[ConstKey(i, Method)] == IdKey(i, Method);
      assert ids[ConstKey(i, Auth)] == IdKey(i, Auth) && ids[ConstKey(i, Token)] == IdKey(i, Token);
      assert ids[ConstKey(i, Payload)] == IdKey(i, Payload) && ids[ConstKey(i, Headers)] == IdKey(i, Headers);
      assert ids[ConstKey(i, Color)] == IdKey(i, Color);
      defaults := defaults[ids[ConstKey(i, Enabled)] := Bool(false)];
      defaults := defaults[ids[ConstKey(i, Label)] := Str("Action " + NatToDecimal(i))];
      defaults := defaults[ids[ConstKey(i, Url)] := Str(DefaultUrl)];
      defaults := defaults[ids[ConstKey(i, Method)] := Str("POST")];
      defaults := defaults[ids[ConstKey(i, Auth)] := Str("none")];
      defaults := defaults[ids[ConstKey(i, Token)] := Str("")];
      defaults := defaults[ids[ConstKey(i, Payload)] := Str("{\"message\": \"Action " + NatToDecimal(i) + " triggered\"}")];
      defaults := defaults[ids[ConstKey(i, Headers)] := Str(DefaultHeaders)];
      defaults := defaults[ids[ConstKey(i, Color)] := Str(buttonColors[i - 1])];
      i := i + 1;
    }
  }
}
