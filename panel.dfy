/**
 * The settings editor: a working copy of the settings whose selected button is
 * edited by copy-and-replace updates, a header dictionary edited key by key,
 * and the save that hands the working copy back with the current selection.
 */
module Panel {
  import opened Wrappers
  import opened Js

  /** One button as the editor holds it. `caption` is the button's label. */
  datatype PanelButton = PanelButton(
    id: string,
    enabled: bool,
    caption: string,
    url: string,
    httpMethod: string,
    payload: string,
    headers: map<string, string>,
    authType: string,
    authToken: string,
    authUsername: string,
    authPassword: string,
    backgroundColor: string,
    textColor: string)

  /** A partial button: the fields an update object names (`Some`) and those it leaves out (`None`). */
  datatype ButtonUpdate = ButtonUpdate(
    id: Option<string>,
    enabled: Option<bool>,
    caption: Option<string>,
    url: Option<string>,
    httpMethod: Option<string>,
    payload: Option<string>,
    headers: Option<map<string, string>>,
    authType: Option<string>,
    authToken: Option<string>,
    authUsername: Option<string>,
    authPassword: Option<string>,
    backgroundColor: Option<string>,
    textColor: Option<string>)

  /** The update that names no field. */
  const NoUpdate := ButtonUpdate(None, None, None, None, None, None, None, None, None, None, None, None, None)

  /** The editor's copy of the settings: the button list, the saved selection and the scalar settings. */
  datatype PanelSettings = PanelSettings(
    buttons: seq<PanelButton>,
    selectedButtonIndex: int,
    general: map<string, JsValue>)

  // ----------------------------------------------------------------- spread

  /** One field of an object spread: the update's value when it names the field. */
  function Pick<T>(update: Option<T>, current: T): (r: T)
    ensures update.Some? ==> r == update.value
    ensures update.None? ==> r == current
  {
    if update.Some? then update.value else current
  }

  /** `{ ...b, ...u }` */
  function Apply(b: PanelButton, u: ButtonUpdate): PanelButton {
    PanelButton(
      Pick(u.id, b.id), Pick(u.enabled, b.enabled), Pick(u.caption, b.caption),
      Pick(u.url, b.url), Pick(u.httpMethod, b.httpMethod), Pick(u.payload, b.payload),
      Pick(u.headers, b.headers), Pick(u.authType, b.authType), Pick(u.authToken, b.authToken),
      Pick(u.authUsername, b.authUsername), Pick(u.authPassword, b.authPassword),
      Pick(u.backgroundColor, b.backgroundColor), Pick(u.textColor, b.textColor))
  }

  /** `{ ...u, ...v }`: the later update wins field by field. */
  function Merge(u: ButtonUpdate, v: ButtonUpdate): ButtonUpdate {
    ButtonUpdate(
      Or(v.id, u.id), Or(v.enabled, u.enabled), Or(v.caption, u.caption),
      Or(v.url, u.url), Or(v.httpMethod, u.httpMethod), Or(v.payload, u.payload),
      Or(v.headers, u.headers), Or(v.authType, u.authType), Or(v.authToken, u.authToken),
      Or(v.authUsername, u.authUsername), Or(v.authPassword, u.authPassword),
      Or(v.backgroundColor, u.backgroundColor), Or(v.textColor, u.textColor))
  }

  /** The first option that is present. */
  function Or<T>(a: Option<T>, b: Option<T>): (r: Option<T>)
    ensures a.Some? ==> r == a
    ensures a.None? ==> r == b
  {
    if a.Some? then a else b
  }

  /** The update that names no field leaves a button as it is. */
  lemma ApplyNoUpdate(b: PanelButton)
    ensures Apply(b, NoUpdate) == b
  {
  }

  /** Two successive updates are one update with the later one's fields winning. */
  lemma ApplyMerge(b: PanelButton, u: ButtonUpdate, v: ButtonUpdate)
    ensures Apply(Apply(b, u), v) == Apply(b, Merge(u, v))
  {
  }

  /** Applying the same update twice is applying it once. */
  lemma ApplyIdempotent(b: PanelButton, u: ButtonUpdate)
    ensures Apply(Apply(b, u), u) == Apply(b, u)
  {
    ApplyMerge(b, u, u);
    assert Merge(u, u) == u;
  }

  /** `buttons.map((button, index) => index === selected ? { ...button, ...u } : button)` */
  function UpdateAt(bs: seq<PanelButton>, selected: int, u: ButtonUpdate): (r: seq<PanelButton>)
    ensures |r| == |bs|
    ensures forall j :: 0 <= j < |bs| && j != selected ==> r[j] == bs[j]
    ensures 0 <= selected < |bs| ==> r[selected] == Apply(bs[selected], u)
    ensures !(0 <= selected < |bs|) ==> r == bs
  {
    seq(|bs|, j requires 0 <= j < |bs| => if j == selected then Apply(bs[j], u) else bs[j])
  }

  // ---------------------------------------------------------------- headers

  /** `handleHeaderChange`: a non-empty value is stored under the key, an empty one deletes the key. */
  function SetHeader(h: map<string, string>, key: string, value: string): (r: map<string, string>)
    ensures value != "" ==> key in r && r[key] == value
    ensures value == "" ==> key !in r
    ensures forall k :: k != key ==> (k in r <==> k in h)
    ensures forall k :: k in r && k != key ==> r[k] == h[k]
  {
    if value != "" then h[key := value] else h - {key}
  }

  /** `removeHeader`: the key is gone and every other entry stays. */
  function RemoveHeader(h: map<string, string>, key: string): (r: map<string, string>)
    ensures key !in r
    ensures forall k :: k != key ==> (k in r <==> k in h)
    ensures forall k :: k in r ==> r[k] == h[k]
    ensures key !in h ==> r == h
  {
    h - {key}
  }

  /** Setting a header to the empty value is removing it. */
  lemma ClearIsRemove(h: map<string, string>, key: string)
    ensures SetHeader(h, key, "") == RemoveHeader(h, key)
  {
  }

  /** Setting a header and then setting it back to its old value restores the dictionary. */
  lemma SetHeaderRestore(h: map<string, string>, key: string, value: string)
    requires key in h && h[key] != ""
    ensures SetHeader(SetHeader(h, key, value), key, h[key]) == h
  {
    var r := SetHeader(SetHeader(h, key, value), key, h[key]);
    assert forall k :: k in r <==> k in h;
  }

  /**
   * The rename in a header row: the row's `key` is deleted and, when the new
   * name is non-empty, the row's `value` is stored under it.
   */
  function RenameHeader(h: map<string, string>, key: string, value: string, newName: string): (r: map<string, string>)
    ensures newName != "" ==> newName in r && r[newName] == value
    ensures key != newName ==> key !in r
    ensures newName == "" ==> r == RemoveHeader(h, key)
    ensures forall k :: k != key && k != newName ==> (k in r <==> k in h)
    ensures forall k :: k in r && k != key && k != newName ==> r[k] == h[k]
  {
    var copy := h - {key};
    if newName != "" then copy[newName := value] else copy
  }

  /** Renaming a row to a fresh name and back again restores the dictionary. */
  lemma RenameRoundTrip(h: map<string, string>, key: string, newName: string)
    requires key in h && key != "" && newName != "" && newName !in h
    ensures RenameHeader(RenameHeader(h, key, h[key], newName), newName, h[key], key) == h
  {
    var h1 := RenameHeader(h, key, h[key], newName);
    assert h1 - {newName} == h - {key};
    assert (h - {key})[key := h[key]] == h;
  }

  /** Renaming a row to its own name leaves the dictionary as it is. */
  lemma RenameToSameName(h: map<string, string>, key: string)
    requires key in h && key != ""
    ensures RenameHeader(h, key, h[key], key) == h
  {
    var r := RenameHeader(h, key, h[key], key);
    assert forall k :: k in r <==> k in h;
  }

  /** `key && !headers[key]`: the name typed into the prompt is non-empty and has no non-empty value yet. */
  predicate AddHeaderApplies(h: map<string, string>, prompted: Option<string>) {
    prompted.Some? && prompted.value != "" && !(prompted.value in h && h[prompted.value] != "")
  }

  /** `addHeader` as the editor has it: it passes `''` to `handleHeaderChange`, which deletes. */
  function AddHeaderAsWritten(h: map<string, string>, prompted: Option<string>): map<string, string> {
    if AddHeaderApplies(h, prompted) then SetHeader(h, prompted.value, "") else h
  }

  /** The Add Header button as written never adds a header: the dictionary only ever loses the prompted key. */
  lemma AddHeaderNeverAdds(h: map<string, string>, prompted: Option<string>)
    ensures var r := AddHeaderAsWritten(h, prompted);
      && r.Keys <= h.Keys
      && (AddHeaderApplies(h, prompted) ==> prompted.value !in r)
      && (forall k :: k in r ==> r[k] == h[k])
  {
  }

  /** A concrete run: adding `X-Test` to an empty dictionary leaves it empty. */
  lemma AddHeaderEmptyExample()
    ensures AddHeaderAsWritten(map[], Some("X-Test")) == map[]
  {
  }

  /** The evidently intended `addHeader`: a new row with the prompted name and an empty value. */
  function AddHeaderIntended(h: map<string, string>, prompted: Option<string>): (r: map<string, string>)
    ensures AddHeaderApplies(h, prompted) ==> prompted.value in r && r[prompted.value] == ""
    ensures AddHeaderApplies(h, prompted) ==> r.Keys == h.Keys + {prompted.value}
    ensures !AddHeaderApplies(h, prompted) ==> r == h
    ensures forall k :: k in h && (prompted.None? || k != prompted.value) ==> k in r && r[k] == h[k]
  {
    if AddHeaderApplies(h, prompted) then h[prompted.value := ""] else h
  }

  /** Once added, the new row can be filled in with a value, which is then stored under its name. */
  lemma AddedHeaderCanBeFilled(h: map<string, string>, name: string, value: string)
    requires AddHeaderApplies(h, Some(name)) && value != ""
    ensures SetHeader(AddHeaderIntended(h, Some(name)), name, value) == h[name := value]
  {
  }

  // ------------------------------------------------------------------ reset

  /** The defaults `resetButtonToDefaults` writes into button number `n`. */
  function ResetUpdate(n: int): ButtonUpdate {
    ButtonUpdate(
      None, None,
      Some("Action " + IntToDecimal(n)),
      Some("https://httpbin.org/post"),
      Some("POST"),
      Some(ResetPayload(n)),
      Some(map["Content-Type" := "application/json"]),
      Some("none"), Some(""), Some(""), Some(""),
      None, None)
  }

  /** `{"message": "Action n triggered", "buttonId": n}` */
  function ResetPayload(n: int): string {
    "{\"message\": \"Action " + IntToDecimal(n) + " triggered\", \"buttonId\": " + IntToDecimal(n) + "}"
  }

  /** A reset writes the request defaults and keeps the id, the enabled flag and both colours. */
  lemma ResetKeepsAppearance(b: PanelButton, n: int)
    ensures var r := Apply(b, ResetUpdate(n));
      && r.id == b.id && r.enabled == b.enabled
      && r.backgroundColor == b.backgroundColor && r.textColor == b.textColor
      && r.caption == "Action " + IntToDecimal(n)
      && r.url == "https://httpbin.org/post" && r.httpMethod == "POST"
      && r.payload == ResetPayload(n)
      && r.headers == map["Content-Type" := "application/json"]
      && r.authType == "none" && r.authToken == "" && r.authUsername == "" && r.authPassword == ""
  {
  }

  /** Resetting twice is resetting once. */
  lemma ResetIdempotent(b: PanelButton, n: int)
    ensures Apply(Apply(b, ResetUpdate(n)), ResetUpdate(n)) == Apply(b, ResetUpdate(n))
  {
    ApplyIdempotent(b, ResetUpdate(n));
  }

  /** `buttons.find(b => b.id === id)` finds something. */
  predicate HasButtonWithId(bs: seq<PanelButton>, id: string) {
    exists j :: 0 <= j < |bs| && bs[j].id == id
  }

  // ----------------------------------------------------------------- editor

  class SettingsPanel {
    var localSettings: PanelSettings
    var selectedButtonIndex: int

    /** The editor opens on a copy of the given settings and their selection. */
    constructor (settings: PanelSettings)
      ensures localSettings == settings
      ensures selectedButtonIndex == settings.selectedButtonIndex
    {
      localSettings := settings;
      selectedButtonIndex := settings.selectedButtonIndex;
    }

    /** The selection names an existing button. */
    predicate HasSelection()
      reads this
    {
      0 <= selectedButtonIndex < |localSettings.buttons|
    }

    /** `localSettings.buttons[selectedButtonIndex]` */
    function SelectedButton(): PanelButton
      reads this
      requires HasSelection()
    {
      localSettings.buttons[selectedButtonIndex]
    }

    /** Choosing a button in the selector. */
    method SelectButton(index: int)
      modifies this
      ensures selectedButtonIndex == index
      ensures localSettings == old(localSettings)
    {
      selectedButtonIndex := index;
    }

    /** `handleSave`: the working copy with its selection replaced by the current one. */
    method HandleSave() returns (saved: PanelSettings)
      ensures saved.buttons == localSettings.buttons
      ensures saved.general == localSettings.general
      ensures saved.selectedButtonIndex == selectedButtonIndex
    {
      saved := localSettings.(selectedButtonIndex := selectedButtonIndex);
    }

    /** `handleGeneralSettingChange`: one scalar setting replaced; the buttons and everything else kept. */
    method HandleGeneralSettingChange(key: string, value: JsValue)
      modifies this
      ensures localSettings.general == old(localSettings.general)[key := value]
      ensures localSettings.buttons == old(localSettings.buttons)
      ensures localSettings.selectedButtonIndex == old(localSettings.selectedButtonIndex)
      ensures selectedButtonIndex == old(selectedButtonIndex)
    {
      localSettings := localSettings.(general := localSettings.general[key := value]);
    }

    /**
     * `handleButtonChange`: the selected button becomes `{ ...button, ...u }`;
     * the count and every other button are kept.
     */
    method HandleButtonChange(u: ButtonUpdate)
      modifies this
      ensures localSettings.buttons == UpdateAt(old(localSettings.buttons), selectedButtonIndex, u)
      ensures localSettings.general == old(localSettings.general)
      ensures localSettings.selectedButtonIndex == old(localSettings.selectedButtonIndex)
      ensures selectedButtonIndex == old(selectedButtonIndex)
    {
      localSettings := localSettings.(buttons := UpdateAt(localSettings.buttons, selectedButtonIndex, u));
    }

    /** Stores the selected button's new header dictionary. */
    method StoreHeaders(headers: map<string, string>)
      modifies this
      requires HasSelection()
      ensures HasSelection()
      ensures SelectedButton() == old(SelectedButton()).(headers := headers)
      ensures localSettings.buttons == UpdateAt(old(localSettings.buttons), selectedButtonIndex,
                                                NoUpdate.(headers := Some(headers)))
      ensures localSettings.general == old(localSettings.general)
      ensures localSettings.selectedButtonIndex == old(localSettings.selectedButtonIndex)
      ensures selectedButtonIndex == old(selectedButtonIndex)
    {
      HandleButtonChange(NoUpdate.(headers := Some(headers)));
    }

    /**
     * `handleHeaderChange`: copy the selected button's headers, assign or
     * delete the key, store the copy. Without a selected button the handler
     * throws on `selectedButton.headers` and nothing changes.
     */
    method HandleHeaderChange(key: string, value: string)
      modifies this
      ensures HasSelection() <==> old(HasSelection())
      ensures old(HasSelection()) ==> SelectedButton() == old(SelectedButton()).(headers := SetHeader(old(SelectedButton().headers), key, value))
      ensures |localSettings.buttons| == |old(localSettings.buttons)|
      ensures old(HasSelection()) ==> forall j :: 0 <= j < |localSettings.buttons| && j != selectedButtonIndex ==> localSettings.buttons[j] == old(localSettings.buttons[j])
      ensures !old(HasSelection()) ==> localSettings == old(localSettings)
      ensures localSettings.general == old(localSettings.general)
      ensures localSettings.selectedButtonIndex == old(localSettings.selectedButtonIndex)
      ensures selectedButtonIndex == old(selectedButtonIndex)
    {
      if HasSelection() {
        var newHeaders := SelectedButton().headers;
        if value != "" {
          newHeaders := newHeaders[key := value];
        } else {
          newHeaders := newHeaders - {key};
        }
        StoreHeaders(newHeaders);
      }
    }

    /** `removeHeader`: copy the selected button's headers, delete the key, store the copy. */
    method RemoveHeaderFromSelected(key: string)
      modifies this
      ensures HasSelection() <==> old(HasSelection())
      ensures old(HasSelection()) ==> SelectedButton() == old(SelectedButton()).(headers := RemoveHeader(old(SelectedButton().headers), key))
      ensures |localSettings.buttons| == |old(localSettings.buttons)|
      ensures old(HasSelection()) ==> forall j :: 0 <= j < |localSettings.buttons| && j != selectedButtonIndex ==> localSettings.buttons[j] == old(localSettings.buttons[j])
      ensures !old(HasSelection()) ==> localSettings == old(localSettings)
      ensures localSettings.general == old(localSettings.general)
      ensures localSettings.selectedButtonIndex == old(localSettings.selectedButtonIndex)
      ensures selectedButtonIndex == old(selectedButtonIndex)
    {
      if HasSelection() {
        var newHeaders := SelectedButton().headers;
        newHeaders := newHeaders - {key};
        StoreHeaders(newHeaders);
      }
    }

    /** Editing the name field of the header row `key: value` to `newName`. */
    method RenameHeaderOfSelected(key: string, value: string, newName: string)
      modifies this
      ensures HasSelection() <==> old(HasSelection())
      ensures old(HasSelection()) ==> SelectedButton() == old(SelectedButton()).(headers := RenameHeader(old(SelectedButton().headers), key, value, newName))
      ensures |localSettings.buttons| == |old(localSettings.buttons)|
      ensures old(HasSelection()) ==> forall j :: 0 <= j < |localSettings.buttons| && j != selectedButtonIndex ==> localSettings.buttons[j] == old(localSettings.buttons[j])
      ensures !old(HasSelection()) ==> localSettings == old(localSettings)
      ensures localSettings.general == old(localSettings.general)
      ensures localSettings.selectedButtonIndex == old(localSettings.selectedButtonIndex)
      ensures selectedButtonIndex == old(selectedButtonIndex)
    {
      if HasSelection() {
        var newHeaders := SelectedButton().headers;
        newHeaders := newHeaders - {key};
        if newName != "" {
          newHeaders := newHeaders[newName := value];
        }
        StoreHeaders(newHeaders);
      }
    }

    /**
     * `addHeader` with the name the prompt returned (`None` when cancelled),
     * as written: when the name is non-empty and has no value yet it calls
     * `handleHeaderChange(key, '')`, which deletes the key, so no row is ever
     * added. AddHeaderIntended is the evidently intended behaviour.
     */
    method AddHeader(prompted: Option<string>)
      modifies this
      ensures HasSelection() <==> old(HasSelection())
      ensures old(HasSelection()) ==> SelectedButton() == old(SelectedButton()).(headers := AddHeaderAsWritten(old(SelectedButton().headers), prompted))
      ensures old(HasSelection()) ==> SelectedButton().headers.Keys <= old(SelectedButton().headers.Keys)
      ensures |localSettings.buttons| == |old(localSettings.buttons)|
      ensures old(HasSelection()) ==> forall j :: 0 <= j < |localSettings.buttons| && j != selectedButtonIndex ==> localSettings.buttons[j] == old(localSettings.buttons[j])
      ensures !(old(HasSelection()) && AddHeaderApplies(old(SelectedButton().headers), prompted)) ==> localSettings == old(localSettings)
      ensures localSettings.general == old(localSettings.general)
      ensures localSettings.selectedButtonIndex == old(localSettings.selectedButtonIndex)
      ensures selectedButtonIndex == old(selectedButtonIndex)
    {
      if HasSelection() && AddHeaderApplies(SelectedButton().headers, prompted) {
        AddHeaderNeverAdds(SelectedButton().headers, prompted);
        HandleHeaderChange(prompted.value, "");
      }
    }

    /**
     * `resetButtonToDefaults` after the confirmation dialog answered `confirmed`:
     * when some button has the id `selectedButtonIndex + 1`, the selected button
     * receives the defaults; otherwise nothing changes.
     */
    method ResetButtonToDefaults(confirmed: bool)
      modifies this
      ensures confirmed && HasButtonWithId(old(localSettings.buttons), IntToDecimal(selectedButtonIndex + 1)) ==>
        localSettings.buttons == UpdateAt(old(localSettings.buttons), selectedButtonIndex, ResetUpdate(selectedButtonIndex + 1))
      ensures !(confirmed && HasButtonWithId(old(localSettings.buttons), IntToDecimal(selectedButtonIndex + 1))) ==>
        localSettings == old(localSettings)
      ensures localSettings.general == old(localSettings.general)
      ensures localSettings.selectedButtonIndex == old(localSettings.selectedButtonIndex)
      ensures selectedButtonIndex == old(selectedButtonIndex)
    {
      if confirmed {
        var wanted := IntToDecimal(selectedButtonIndex + 1);
        var found := false;
        var j := 0;
        while j < |localSettings.buttons| && !found
          invariant 0 <= j <= |localSettings.buttons|
          invariant found ==> HasButtonWithId(localSettings.buttons, wanted)
          invariant !found ==> forall i :: 0 <= i < j ==> localSettings.buttons[i].id != wanted
        {
          if localSettings.buttons[j].id == wanted {
            found := true;
          }
          j := j + 1;
        }
        if found {
          HandleButtonChange(ResetUpdate(selectedButtonIndex + 1));
        }
      }
    }
  }
}
