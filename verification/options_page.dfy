/**
 The options page: the confirmation phrase chosen from the platform, the
 form state restored from storage with its per-field defaults, and the save
 gate driven by the first checked format radio button.
 */
module OptionsPage {
  import opened Wrappers
  import opened Records
  import opened Formatter

  const DefaultTimeout := "3000"
  const MacMessage := "Preferences saved!"
  const OtherMessage := "Options saved!"

  /** setMessage: the phrase shown after a save. */
  function SaveMessage(platform: string): (r: string)
    ensures r == MacMessage <==> platform == "mac"
    ensures r == OtherMessage <==> platform != "mac"
  {
    if platform == "mac" then MacMessage else OtherMessage
  }

  /** What the form shows: the id of the checked format radio button and the
      values of the other five fields. */
  datatype FormState = FormState(
    format: string, auto: bool, msec: string, link: string, href: string, name: string)

  /** setPreferences: the form state restored from a stored record. Every
      string field falls back to its default when absent or empty; `auto`
      falls back to true only when absent, so a stored false survives. */
  function SetPreferences(o: StoredOptions): (r: FormState)
    ensures r.format == EffectiveFormat(o)
    ensures r.auto <==> o.auto != Some(false)
    ensures o.msec.Some? && o.msec.value != "" ==> r.msec == o.msec.value
    ensures o.msec.None? || o.msec == Some("") ==> r.msec == "3000"
    ensures o.link.Some? && o.link.value != "" ==> r.link == o.link.value
    ensures o.link.None? || o.link == Some("") ==> r.link == "link"
    ensures o.href.Some? && o.href.value != "" ==> r.href == o.href.value
    ensures o.href.None? || o.href == Some("") ==> r.href == "href"
    ensures o.name.Some? && o.name.value != "" ==> r.name == o.name.value
    ensures o.name.None? || o.name == Some("") ==> r.name == "name"
  {
    FormState(
      OrDefault(o.format, DefaultFormat),
      o.auto.GetOr(true),
      OrDefault(o.msec, DefaultTimeout),
      OrDefault(o.link, "link"),
      OrDefault(o.href, "href"),
      OrDefault(o.name, "name"))
  }

  /** The format restored on the options page is the one the formatter uses:
      the two defaults agree. */
  lemma RestoredFormatRendersAlike(data: PageData, o: StoredOptions)
    ensures GetFormattedLink(data, o) == GetFormattedLink(data, o.(format := Some(SetPreferences(o).format)))
    ensures CapitalizedFormat(o.(format := Some(SetPreferences(o).format))) == CapitalizedFormat(o)
  {
  }

  /** One radio button of the format group. */
  datatype RadioInput = RadioInput(value: string, checked: bool)

  /** The value of the lowest-index checked radio button, if any. */
  function FirstCheckedValue(inputs: seq<RadioInput>): (r: Option<string>)
    ensures r.None? <==> forall i :: 0 <= i < |inputs| ==> !inputs[i].checked
    ensures r.Some? ==> exists i :: 0 <= i < |inputs| && inputs[i].checked && inputs[i].value == r.value
                                   && forall j :: 0 <= j < i ==> !inputs[j].checked
  {
    if inputs == [] then None
    else if inputs[0].checked then Some(inputs[0].value)
    else
      var r := FirstCheckedValue(inputs[1..]);
      assert forall i :: 1 <= i < |inputs| ==> inputs[i] == inputs[1..][i - 1];
      if r.Some? then
        var k :| 0 <= k < |inputs[1..]| && inputs[1..][k].checked && inputs[1..][k].value == r.value
                 && forall j :: 0 <= j < k ==> !inputs[1..][j].checked;
        assert inputs[k + 1].checked && inputs[k + 1].value == r.value;
        r
      else r
  }

  /** The scan in saveOptions: the value of the first checked radio button,
      stopping at it. */
  method SelectedFormat(inputs: seq<RadioInput>) returns (selected: Option<string>)
    ensures selected == FirstCheckedValue(inputs)
    ensures selected.None? <==> forall i :: 0 <= i < |inputs| ==> !inputs[i].checked
  {
    selected := None;
    var i := 0;
    while i < |inputs|
      invariant 0 <= i <= |inputs|
      invariant selected.None?
      invariant FirstCheckedValue(inputs[i..]) == FirstCheckedValue(inputs)
    {
      if inputs[i].checked {
        selected := Some(inputs[i].value);
        break;
      }
      assert inputs[i..][1..] == inputs[i + 1..];
      i := i + 1;
    }
  }

  /** The form fields saved besides the format. */
  datatype FormFields = FormFields(auto: bool, msec: string, link: string, href: string, name: string)

  /** The record saveOptions writes, or None when the gate `if (selectedFormat)`
      stops the save: no radio button checked, or the checked one has an
      empty value. */
  function SaveRecord(selected: Option<string>, f: FormFields): (r: Option<StoredOptions>)
    ensures r.Some? <==> selected.Some? && selected.value != ""
    ensures r.Some? ==>
      && r.value.format == selected
      && r.value.auto == Some(f.auto)
      && r.value.msec == Some(f.msec)
      && r.value.link == Some(f.link)
      && r.value.href == Some(f.href)
      && r.value.name == Some(f.name)
  {
    match selected
    case Some(v) =>
      if v != "" then Some(StoredOptions(Some(v), Some(f.auto), Some(f.msec), Some(f.link), Some(f.href), Some(f.name)))
      else None
    case None => None
  }

  /** saveOptions: scans the radio buttons and builds the record to store. */
  method SaveOptions(inputs: seq<RadioInput>, f: FormFields) returns (saved: Option<StoredOptions>)
    ensures saved.None? <==>
      (forall i :: 0 <= i < |inputs| ==> !inputs[i].checked) || FirstCheckedValue(inputs) == Some("")
    ensures saved.Some? ==> saved.value.format == FirstCheckedValue(inputs)
    ensures saved == SaveRecord(FirstCheckedValue(inputs), f)
  {
    var selected := SelectedFormat(inputs);
    saved := SaveRecord(selected, f);
  }

  /** Restoring a record the options page saved shows the saved format and
      auto flag again, and each text field as saved unless it was empty. */
  lemma SaveThenRestore(v: string, f: FormFields)
    requires v != ""
    ensures SaveRecord(Some(v), f).Some?
    ensures SetPreferences(SaveRecord(Some(v), f).value)
      == FormState(v, f.auto,
                   if f.msec != "" then f.msec else "3000",
                   if f.link != "" then f.link else "link",
                   if f.href != "" then f.href else "href",
                   if f.name != "" then f.name else "name")
  {
  }

  /** The record the options page saves from an unedited form. */
  function Resave(state: FormState): StoredOptions {
    StoredOptions(Some(state.format), Some(state.auto), Some(state.msec),
                  Some(state.link), Some(state.href), Some(state.name))
  }

  /** Restoring is stable: saving the restored form unchanged and restoring
      again shows the same form. */
  lemma RestoreIsStable(o: StoredOptions)
    ensures SetPreferences(Resave(SetPreferences(o))) == SetPreferences(o)
  {
  }
}
