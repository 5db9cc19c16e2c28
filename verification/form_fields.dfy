/**
  The field helpers of `Form`: the plain `field_*` inputs, the Bootstrap 3 and 4
  compound widgets, and the toggles. Markup is not modelled; each helper yields the
  abstract record it would hand to CodeIgniter's form helpers: which input kind,
  which id and name, which value, and which attribute array.
 */
module FormFields {
  import opened Wrappers
  import opened Php
  import opened Request
  import opened FormBuilder

  /** CodeIgniter's `set_value(name, default)`, which this model leaves uninterpreted. */
  type SetValue = (string, Option<string>) -> string

  datatype Kind = Text | Email | Password | Textarea | Upload | Hidden

  /** An input as given to `form_input`/`form_password`/...: kind, `$data` id and name, value, `$extra`. */
  datatype Field = Field(kind: Kind, id: Option<string>, name: string, value: string, extra: Attrs)

  datatype Dropdown = Dropdown(name: string, options: seq<(string, string)>, selected: seq<string>, extra: Attrs)

  datatype Button = Button(buttonType: string, caption: string, extra: Attrs)

  datatype Control = Input(field: Field) | Select(dropdown: Dropdown) | Press(button: Button)

  /** `form_label($text, $for)`. */
  datatype Label = Label(text: string, forName: string)

  /** The popover icon of the Bootstrap 4 helpers: `$extra['tooltip']`, missing entries read as ''. */
  datatype Tooltip = Tooltip(icon: string, title: string, content: string)

  /** A compound widget: an optional label, one control, and (Bootstrap 4) an optional tooltip. */
  datatype Widget = Widget(formLabel: Option<Label>, control: Control, tooltip: Option<Tooltip>)

  function ControlExtra(c: Control): Attrs {
    match c
    case Input(f) => f.extra
    case Select(d) => d.extra
    case Press(b) => b.extra
  }

  /** The `class` attribute the widget's control ends up with ('' when there is none). */
  function ClassOf(w: Widget): string {
    var extra := ControlExtra(w.control);
    if "class" in extra then extra["class"] else ""
  }

  /** Two attribute arrays agree on every attribute except `class`. */
  ghost predicate SameOutsideClass(a: Attrs, b: Attrs) {
    forall k :: k != "class" ==> (k in a <==> k in b) && (k in a ==> a[k] == b[k])
  }

  // ---------------------------------------------------------------------------
  // Class rules

  /**
    The merge rule of `bs3_text`, `bs3_textarea`, `bs4_input`, ...: a caller's class
    is kept with `suffix` appended; without one the class becomes `fallback`.
   */
  function MergeClass(extra: Attrs, suffix: string, fallback: string): (r: Attrs)
    ensures "class" in r
    ensures "class" in extra ==> r["class"] == extra["class"] + suffix
    ensures "class" !in extra ==> r["class"] == fallback
    ensures SameOutsideClass(r, extra)
  {
    if "class" in extra then extra["class" := extra["class"] + suffix] else extra["class" := fallback]
  }

  /** The overwrite rule of `bs3_email`, `bs3_password`, `bs3_dropdown`, ...: any caller class is replaced. */
  function OverwriteClass(extra: Attrs, cls: string): (r: Attrs)
    ensures "class" in r && r["class"] == cls
    ensures SameOutsideClass(r, extra)
  {
    extra["class" := cls]
  }

  // ---------------------------------------------------------------------------
  // Basic fields

  /** `field_text`: a text input with id and name `name`; its value follows flash precedence. */
  function FieldText(form: Form, name: string, value: Option<string>, extra: Attrs, setValue: SetValue): (r: Field)
    ensures r.kind == Text && r.id == Some(name) && r.name == name && r.extra == extra
    ensures r.value == GetFieldValue(form, name, value, setValue)
  {
    Field(Text, Some(name), name, GetFieldValue(form, name, value, setValue), extra)
  }

  /** `field_email`: like `field_text` with input type email. */
  function FieldEmail(form: Form, name: string, value: Option<string>, extra: Attrs, setValue: SetValue): (r: Field)
    ensures r.kind == Email && r.id == Some(name) && r.name == name && r.extra == extra
    ensures r.value == GetFieldValue(form, name, value, setValue)
  {
    Field(Email, Some(name), name, GetFieldValue(form, name, value, setValue), extra)
  }

  /** `field_password`: never takes a flash-restored value, whatever the form holds; NULL becomes ''. */
  function FieldPassword(form: Form, name: string, value: Option<string>, extra: Attrs): (r: Field)
    ensures r.kind == Password && r.id == Some(name) && r.name == name && r.extra == extra
    ensures r.value == Interpolate(value)
  {
    Field(Password, Some(name), name, if value.None? then "" else value.value, extra)
  }

  /** `field_textarea`: the id comes from a non-empty `$extra['id']` and is absent otherwise. */
  function FieldTextarea(form: Form, name: string, value: Option<string>, extra: Attrs, setValue: SetValue): (r: Field)
    ensures r.kind == Textarea && r.name == name && r.extra == extra
    ensures r.id.Some? <==> "id" in extra && !IsEmptyString(extra["id"])
    ensures r.id.Some? ==> r.id.value == extra["id"]
    ensures r.value == GetFieldValue(form, name, value, setValue)
  {
    var id := if "id" in extra && !IsEmptyString(extra["id"]) then Some(extra["id"]) else None;
    Field(Textarea, id, name, GetFieldValue(form, name, value, setValue), extra)
  }

  /** `field_upload`: a file input with id and name `name`; its value follows flash precedence. */
  function FieldUpload(form: Form, name: string, value: Option<string>, extra: Attrs, setValue: SetValue): (r: Field)
    ensures r.kind == Upload && r.id == Some(name) && r.name == name && r.extra == extra
    ensures r.value == GetFieldValue(form, name, value, setValue)
  {
    Field(Upload, Some(name), name, GetFieldValue(form, name, value, setValue), extra)
  }

  /** `field_hidden`: never takes a flash-restored value; NULL becomes ''. */
  function FieldHidden(form: Form, name: string, value: Option<string>, extra: Attrs): (r: Field)
    ensures r.kind == Hidden && r.id == Some(name) && r.name == name && r.extra == extra
    ensures r.value == Interpolate(value)
  {
    Field(Hidden, Some(name), name, if value.None? then "" else value.value, extra)
  }

  /** Password and hidden fields render the same for every form, restored flash data or not. */
  lemma PasswordAndHiddenIgnoreFlash(f1: Form, f2: Form, name: string, value: Option<string>, extra: Attrs)
    ensures FieldPassword(f1, name, value, extra) == FieldPassword(f2, name, value, extra)
    ensures FieldHidden(f1, name, value, extra) == FieldHidden(f2, name, value, extra)
  {
  }

  function FieldDropdown(name: string, options: seq<(string, string)>, selected: seq<string>, extra: Attrs): Dropdown {
    Dropdown(name, options, selected, extra)
  }

  function BtnSubmit(labelText: string, extra: Attrs): Button {
    Button("submit", labelText, extra)
  }

  // ---------------------------------------------------------------------------
  // Bootstrap 3

  /** `bs3_text`: labelled text input; a caller class gets " form-control" appended, else "form-control". */
  function Bs3Text(form: Form, labelText: string, name: string, value: Option<string>, extra: Attrs, setValue: SetValue): (r: Widget)
    ensures r.formLabel == Some(Label(labelText, name)) && r.tooltip.None?
    ensures r.control.Input? && r.control.field.kind == Text
    ensures r.control.field.name == name && r.control.field.id == Some(name)
    ensures r.control.field.value == GetFieldValue(form, name, value, setValue)
    ensures ClassOf(r) == if "class" in extra then extra["class"] + " form-control" else "form-control"
    ensures SameOutsideClass(ControlExtra(r.control), extra)
  {
    Widget(Some(Label(labelText, name)), Input(FieldText(form, name, value, MergeClass(extra, " form-control", "form-control"), setValue)), None)
  }

  /** `bs3_text_simple`: unlabelled text input; a caller class is kept as is, else "form-control-sm". */
  function Bs3TextSimple(form: Form, name: string, value: Option<string>, extra: Attrs, setValue: SetValue): (r: Widget)
    ensures r.formLabel.None? && r.control.Input? && r.control.field.kind == Text
    ensures r.control.field.name == name && r.control.field.id == Some(name)
    ensures r.control.field.value == GetFieldValue(form, name, value, setValue)
    ensures ClassOf(r) == if "class" in extra then extra["class"] else "form-control-sm"
    ensures SameOutsideClass(ControlExtra(r.control), extra)
  {
    Widget(None, Input(FieldText(form, name, value, MergeClass(extra, "", "form-control-sm"), setValue)), None)
  }

  /** `bs3_text_simple2`: unlabelled text input; " form-control input-sm" appended, else set. */
  function Bs3TextSimple2(form: Form, name: string, value: Option<string>, extra: Attrs, setValue: SetValue): (r: Widget)
    ensures r.formLabel.None? && r.control.Input? && r.control.field.kind == Text
    ensures r.control.field.name == name && r.control.field.id == Some(name)
    ensures r.control.field.value == GetFieldValue(form, name, value, setValue)
    ensures ClassOf(r) == if "class" in extra then extra["class"] + " form-control input-sm" else "form-control input-sm"
    ensures SameOutsideClass(ControlExtra(r.control), extra)
  {
    Widget(None, Input(FieldText(form, name, value, MergeClass(extra, " form-control input-sm", "form-control input-sm"), setValue)), None)
  }

  /** `bs3_dropdown_simple`: unlabelled dropdown; a caller class is kept as is, else "form-control". */
  function Bs3DropdownSimple(name: string, options: seq<(string, string)>, selected: seq<string>, extra: Attrs): (r: Widget)
    ensures r.formLabel.None? && r.control == Select(Dropdown(name, options, selected, ControlExtra(r.control)))
    ensures ClassOf(r) == if "class" in extra then extra["class"] else "form-control"
    ensures SameOutsideClass(ControlExtra(r.control), extra)
  {
    Widget(None, Select(FieldDropdown(name, options, selected, MergeClass(extra, "", "form-control"))), None)
  }

  /** `bs3_textarea_simple`: unlabelled textarea; a caller class is kept as is, else "form-control input-sm". */
  function Bs3TextareaSimple(form: Form, name: string, value: Option<string>, extra: Attrs, setValue: SetValue): (r: Widget)
    ensures r.formLabel.None? && r.control.Input? && r.control.field.kind == Textarea
    ensures r.control.field.name == name
    ensures r.control.field.id.Some? <==> "id" in extra && !IsEmptyString(extra["id"])
    ensures r.control.field.id.Some? ==> r.control.field.id.value == extra["id"]
    ensures r.control.field.value == GetFieldValue(form, name, value, setValue)
    ensures ClassOf(r) == if "class" in extra then extra["class"] else "form-control input-sm"
    ensures SameOutsideClass(ControlExtra(r.control), extra)
  {
    Widget(None, Input(FieldTextarea(form, name, value, MergeClass(extra, "", "form-control input-sm"), setValue)), None)
  }

  /** `bs3_textarea` (and `bs4_textarea`, which is the same): labelled textarea with the merge rule. */
  function Bs3Textarea(form: Form, labelText: string, name: string, value: Option<string>, extra: Attrs, setValue: SetValue): (r: Widget)
    ensures r.formLabel == Some(Label(labelText, name)) && r.tooltip.None?
    ensures r.control.Input? && r.control.field.kind == Textarea
    ensures r.control.field.name == name
    ensures r.control.field.id.Some? <==> "id" in extra && !IsEmptyString(extra["id"])
    ensures r.control.field.id.Some? ==> r.control.field.id.value == extra["id"]
    ensures r.control.field.value == GetFieldValue(form, name, value, setValue)
    ensures ClassOf(r) == if "class" in extra then extra["class"] + " form-control" else "form-control"
    ensures SameOutsideClass(ControlExtra(r.control), extra)
  {
    Widget(Some(Label(labelText, name)), Input(FieldTextarea(form, name, value, MergeClass(extra, " form-control", "form-control"), setValue)), None)
  }

  /** `bs3_email` (and `bs4_email`): labelled email input whose class is always exactly "form-control". */
  function Bs3Email(form: Form, labelText: string, name: string, value: Option<string>, extra: Attrs, setValue: SetValue): (r: Widget)
    ensures r.formLabel == Some(Label(labelText, name))
    ensures r.control.Input? && r.control.field.kind == Email
    ensures r.control.field.name == name && r.control.field.id == Some(name)
    ensures r.control.field.value == GetFieldValue(form, name, value, setValue)
    ensures ClassOf(r) == "form-control"
    ensures SameOutsideClass(ControlExtra(r.control), extra)
  {
    Widget(Some(Label(labelText, name)), Input(FieldEmail(form, name, value, OverwriteClass(extra, "form-control"), setValue)), None)
  }

  /** `bs3_password` (and `bs4_password`): labelled password input, class exactly "form-control", no flash value. */
  function Bs3Password(form: Form, labelText: string, name: string, value: Option<string>, extra: Attrs): (r: Widget)
    ensures r.formLabel == Some(Label(labelText, name))
    ensures r.control.Input? && r.control.field.kind == Password
    ensures r.control.field.name == name && r.control.field.id == Some(name)
    ensures r.control.field.value == Interpolate(value)
    ensures ClassOf(r) == "form-control"
    ensures SameOutsideClass(ControlExtra(r.control), extra)
  {
    Widget(Some(Label(labelText, name)), Input(FieldPassword(form, name, value, OverwriteClass(extra, "form-control"))), None)
  }

  /** `bs3_dropdown`: labelled dropdown whose class is always exactly "form-control". */
  function Bs3Dropdown(labelText: string, name: string, options: seq<(string, string)>, selected: seq<string>, extra: Attrs): (r: Widget)
    ensures r.formLabel == Some(Label(labelText, name))
    ensures r.control.Select? && r.control.dropdown.name == name
    ensures r.control.dropdown.options == options && r.control.dropdown.selected == selected
    ensures ClassOf(r) == "form-control"
    ensures SameOutsideClass(ControlExtra(r.control), extra)
  {
    Widget(Some(Label(labelText, name)), Select(FieldDropdown(name, options, selected, OverwriteClass(extra, "form-control"))), None)
  }

  /** `bs3_submit` (and `bs4_submit`): a submit button whose class is the `$class` argument. */
  function Bs3Submit(labelText: string, cls: string, extra: Attrs): (r: Widget)
    ensures r.formLabel.None? && r.control.Press?
    ensures r.control.button.buttonType == "submit" && r.control.button.caption == labelText
    ensures ClassOf(r) == cls
    ensures SameOutsideClass(ControlExtra(r.control), extra)
  {
    Widget(None, Press(BtnSubmit(labelText, OverwriteClass(extra, cls))), None)
  }

  /**
    `bs3_timepicker` and `bs3_timepicker_sm`: a loosely NULL value (NULL or '')
    falls back to the default; the class is forced to "form-control timepicker";
    the chosen value then goes through `field_text`, so flash still wins.
   */
  function Bs3Timepicker(form: Form, labelText: string, name: string, value: Option<string>, defaultValue: Option<string>,
                         extra: Attrs, setValue: SetValue): (r: Widget)
    ensures r.formLabel == Some(Label(labelText, name))
    ensures r.control.Input? && r.control.field.kind == Text
    ensures r.control.field.name == name && r.control.field.id == Some(name)
    ensures r.control.field.value == GetFieldValue(form, name, if IsLooseNull(value) then defaultValue else value, setValue)
    ensures ClassOf(r) == "form-control timepicker"
    ensures SameOutsideClass(ControlExtra(r.control), extra)
  {
    var chosen := if IsLooseNull(value) then defaultValue else value;
    Widget(Some(Label(labelText, name)), Input(FieldText(form, name, chosen, OverwriteClass(extra, "form-control timepicker"), setValue)), None)
  }

  /** Without flash data, an empty-string time shows the default, while "0" is kept. */
  lemma TimepickerLooseNull(form: Form, labelText: string, name: string, defaultValue: Option<string>, extra: Attrs, setValue: SetValue)
    requires !FlashHolds(form, name)
    ensures Bs3Timepicker(form, labelText, name, Some(""), defaultValue, extra, setValue).control.field.value == setValue(name, defaultValue)
    ensures Bs3Timepicker(form, labelText, name, Some("0"), defaultValue, extra, setValue).control.field.value == setValue(name, Some("0"))
  {
  }

  // ---------------------------------------------------------------------------
  // Bootstrap 4

  /**
    `bs4_input`: labelled text input with the merge rule. The `type` it computes from
    `$extra` is never used: the input is always a text input.
   */
  function Bs4Input(form: Form, labelText: string, name: string, value: Option<string>, extra: Attrs, setValue: SetValue): (r: Widget)
    ensures r.formLabel == Some(Label(labelText, name))
    ensures r.control.Input? && r.control.field.kind == Text
    ensures r.control.field.name == name && r.control.field.id == Some(name)
    ensures r.control.field.value == GetFieldValue(form, name, value, setValue)
    ensures ClassOf(r) == if "class" in extra then extra["class"] + " form-control" else "form-control"
    ensures SameOutsideClass(ControlExtra(r.control), extra)
  {
    Widget(Some(Label(labelText, name)), Input(FieldText(form, name, value, MergeClass(extra, " form-control", "form-control"), setValue)), None)
  }

  /**
    `bs4_multi_dropdown`: sets the placeholder, `multiple`, the full-width style and
    id = name, then applies `bs3_dropdown_simple` (caller class kept, else "form-control").
   */
  function Bs4MultiDropdown(labelText: string, name: string, options: seq<(string, string)>, selected: seq<string>, extra: Attrs): (r: Widget)
    ensures r.formLabel.None? && r.control.Select? && r.control.dropdown.name == name
    ensures r.control.dropdown.options == options && r.control.dropdown.selected == selected
    ensures var e := ControlExtra(r.control);
      && "data-placeholder" in e && e["data-placeholder"] == labelText
      && "multiple" in e && e["multiple"] == "multiple"
      && "style" in e && e["style"] == "width:100%;"
      && "id" in e && e["id"] == name
    ensures ClassOf(r) == if "class" in extra then extra["class"] else "form-control"
    ensures forall k :: k in extra && k !in {"class", "data-placeholder", "multiple", "style", "id"} ==>
      k in ControlExtra(r.control) && ControlExtra(r.control)[k] == extra[k]
  {
    var e := extra["data-placeholder" := labelText]["multiple" := "multiple"]["style" := "width:100%;"]["id" := name];
    Bs3DropdownSimple(name, options, selected, e)
  }

  /**
    `bs4_dropdown`: the label is left out when the label text is empty; `$extra`
    reaches the dropdown untouched (its computed `required` and `type` are not used).
   */
  function Bs4Dropdown(labelText: string, name: string, options: seq<(string, string)>, selected: seq<string>,
                       extra: Attrs, tooltip: Option<Tooltip>): (r: Widget)
    ensures r.formLabel.None? <==> IsEmptyString(labelText)
    ensures r.formLabel.Some? ==> r.formLabel.value == Label(labelText, name)
    ensures r.control == Select(Dropdown(name, options, selected, extra))
    ensures r.tooltip == tooltip
  {
    var lbl := if IsEmptyString(labelText) then None else Some(Label(labelText, name));
    Widget(lbl, Select(FieldDropdown(name, options, selected, extra)), tooltip)
  }

  /** The input `bs4_text` writes out directly, attribute by attribute. */
  datatype TextInput = TextInput(
    formLabel: Label,
    cls: string,
    id: Option<string>,
    inputType: string,
    value: string,
    placeholder: string,
    name: string,
    pattern: Option<string>,
    onInvalid: string,
    onInput: string,
    required: bool,
    tooltip: Option<Tooltip>)

  /** `$extra[key]` under the `@` operator: a missing entry reads as ''. */
  function Lookup(extra: Attrs, key: string): string {
    if key in extra then extra[key] else ""
  }

  /**
    `bs4_text`: `required` is switched on by the mere presence of the key; `type`
    is taken when present (even ''), else "text"; `pattern` and `id` only when
    non-empty; the class is the caller's own with no default; the label is always
    rendered; and the value is the raw argument, never the flash-restored one.
   */
  function Bs4Text(form: Form, labelText: string, name: string, value: Option<string>, extra: Attrs, tooltip: Option<Tooltip>): (r: TextInput)
    ensures r.required <==> "required" in extra
    ensures r.inputType == if "type" in extra then extra["type"] else "text"
    ensures r.pattern.Some? <==> "pattern" in extra && !IsEmptyString(extra["pattern"])
    ensures r.pattern.Some? ==> r.pattern.value == extra["pattern"]
    ensures r.id.Some? <==> "id" in extra && !IsEmptyString(extra["id"])
    ensures r.id.Some? ==> r.id.value == extra["id"]
    ensures r.cls == Lookup(extra, "class") && r.placeholder == Lookup(extra, "placeholder")
    ensures r.onInvalid == Lookup(extra, "oninvalid") && r.onInput == Lookup(extra, "oninput")
    ensures r.formLabel == Label(labelText, name) && r.name == name && r.tooltip == tooltip
    ensures r.value == Interpolate(value)
  {
    var required := "required" in extra;
    var inputType := if "type" in extra then extra["type"] else "text";
    var pattern := if "pattern" in extra && !IsEmptyString(extra["pattern"]) then Some(extra["pattern"]) else None;
    var id := if "id" in extra && !IsEmptyString(extra["id"]) then Some(extra["id"]) else None;
    TextInput(Label(labelText, name), Lookup(extra, "class"), id, inputType, Interpolate(value), Lookup(extra, "placeholder"),
              name, pattern, Lookup(extra, "oninvalid"), Lookup(extra, "oninput"), required, tooltip)
  }

  /**
    Unlike `bs4_input`, `bs4_text` ignores the form's flash data and adds no default
    class: the same arguments give the same input whatever the form holds, and a
    field restored from flash shows the raw argument rather than the restored text.
   */
  lemma Bs4TextVersusBs4Input(f1: Form, f2: Form, labelText: string, name: string, value: Option<string>,
                              extra: Attrs, tooltip: Option<Tooltip>, setValue: SetValue)
    ensures Bs4Text(f1, labelText, name, value, extra, tooltip) == Bs4Text(f2, labelText, name, value, extra, tooltip)
    ensures "class" !in extra ==>
      Bs4Text(f1, labelText, name, value, extra, tooltip).cls == "" && ClassOf(Bs4Input(f1, labelText, name, value, extra, setValue)) == "form-control"
    ensures FlashHolds(f1, name) ==>
      && Bs4Text(f1, labelText, name, value, extra, tooltip).value == Interpolate(value)
      && Bs4Input(f1, labelText, name, value, extra, setValue).control.field.value == f1.formData.value[name]
  {
  }

  // ---------------------------------------------------------------------------
  // Toggles

  datatype Checkbox = Checkbox(name: Option<string>, id: string, cls: string, value: Option<string>, checked: bool)

  datatype HiddenInput = HiddenInput(name: string, id: Option<string>, value: string)

  datatype Toggle = Toggle(checkbox: Checkbox, hidden: Option<HiddenInput>)

  /** `isset($value) && $value == $on`. */
  predicate IsOn(value: Option<string>, on: string) {
    value.Some? && LooseEqual(value.value, on)
  }

  /** `$extra['id']` when set, else the field name. */
  function ToggleId(name: string, extra: Attrs): string {
    if "id" in extra then extra["id"] else name
  }

  /** `bs3_toggle_button`: the checkbox's value and the companion `<name>_status` input carry "checked" or ''. */
  function Bs3ToggleButton(name: string, value: Option<string>, extra: Attrs): (r: Toggle)
    ensures r.checkbox.checked <==> IsOn(value, "1")
    ensures r.checkbox.id == (if "id" in extra then extra["id"] else name)
    ensures r.checkbox.cls == Lookup(extra, "class") && r.checkbox.name.None?
    ensures r.checkbox.value == Some(if r.checkbox.checked then "checked" else "")
    ensures r.hidden == Some(HiddenInput(name + "_status", Some(r.checkbox.id + "_status"), r.checkbox.value.value))
  {
    var checked := value.Some? && LooseEqual(value.value, "1");
    var state := if checked then "checked" else "";
    var id := ToggleId(name, extra);
    Toggle(Checkbox(None, id, Lookup(extra, "class"), Some(state), checked), Some(HiddenInput(name + "_status", Some(id + "_status"), state)))
  }

  /** `bs3_toggle`: the checkbox and a hidden input named `name` both carry the raw value. */
  function Bs3Toggle(name: string, value: Option<string>, extra: Attrs): (r: Toggle)
    ensures r.checkbox.checked <==> IsOn(value, "1")
    ensures r.checkbox.id == (if "id" in extra then extra["id"] else name)
    ensures r.checkbox.cls == Lookup(extra, "class") && r.checkbox.name.None?
    ensures r.checkbox.value == Some(Interpolate(value))
    ensures r.hidden == Some(HiddenInput(name, Some(r.checkbox.id), Interpolate(value)))
  {
    var checked := value.Some? && LooseEqual(value.value, "1");
    var id := ToggleId(name, extra);
    Toggle(Checkbox(None, id, Lookup(extra, "class"), Some(Interpolate(value)), checked), Some(HiddenInput(name, Some(id), Interpolate(value))))
  }

  /** `bs3_toggle_switch` (and `bs4_toggle_switch`, which is the same): a named checkbox alone. */
  function Bs3ToggleSwitch(name: string, value: Option<string>, extra: Attrs): (r: Toggle)
    ensures r.checkbox.checked <==> IsOn(value, "1")
    ensures r.checkbox.id == (if "id" in extra then extra["id"] else name)
    ensures r.checkbox.cls == Lookup(extra, "class")
    ensures r.checkbox.name == Some(name) && r.checkbox.value.None? && r.hidden.None?
  {
    var checked := value.Some? && LooseEqual(value.value, "1");
    Toggle(Checkbox(Some(name), ToggleId(name, extra), Lookup(extra, "class"), None, checked), None)
  }

  /**
    `toggle_switch`: checked exactly when the value is loosely equal to `onValue`;
    a hidden input under the same name submits `offValue` when unchecked. The id is
    always "switchery0" and `$extra` is ignored.
   */
  function ToggleSwitch(name: string, value: Option<string>, offValue: string, onValue: string): (r: Toggle)
    ensures r.checkbox.checked <==> IsOn(value, onValue)
    ensures r.checkbox == Checkbox(Some(name), "switchery0", "switchery", Some(onValue), r.checkbox.checked)
    ensures r.hidden == Some(HiddenInput(name, None, offValue))
  {
    var checked := value.Some? && LooseEqual(value.value, onValue);
    Toggle(Checkbox(Some(name), "switchery0", "switchery", Some(onValue), checked), Some(HiddenInput(name, None, offValue)))
  }

  /** The three `== 1` toggles agree on whether the box is checked, on its id and on its class. */
  lemma TogglesAgree(name: string, value: Option<string>, extra: Attrs)
    ensures var a, b, c := Bs3ToggleButton(name, value, extra).checkbox, Bs3Toggle(name, value, extra).checkbox,
                           Bs3ToggleSwitch(name, value, extra).checkbox;
      a.checked == b.checked == c.checked && a.id == b.id == c.id && a.cls == b.cls == c.cls
  {
  }

  /** "1" and its zero-padded forms check a toggle; NULL, '' and "0" do not. */
  lemma ToggleCheckedValues(name: string, extra: Attrs)
    ensures Bs3ToggleSwitch(name, Some("1"), extra).checkbox.checked
    ensures Bs3ToggleSwitch(name, Some("01"), extra).checkbox.checked
    ensures !Bs3ToggleSwitch(name, None, extra).checkbox.checked
    ensures !Bs3ToggleSwitch(name, Some(""), extra).checkbox.checked
    ensures !Bs3ToggleSwitch(name, Some("0"), extra).checkbox.checked
  {
    assert ParseDigits("01") == 1 by {
      assert "01"[..1] == "0";
      assert "0"[..0] == [];
    }
    assert ParseDigits("1") == 1 by {
      assert "1"[..0] == [];
    }
    assert ParseDigits("0") == 0 by {
      assert "0"[..0] == [];
    }
  }
}
