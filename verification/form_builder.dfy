/**
  `Form_builder` and the state part of `Form`: numbering the forms of one request,
  the flash key each form saves its submitted data under, and the precedence that
  decides a field's value when the form is rendered again.
 */
module FormBuilder {
  import opened Wrappers
  import opened Php
  import opened Request

  /** An HTML attribute array (`$extra`, `$attributes`): attribute name to value. */
  type Attrs = map<string, string>

  /** The `Form_builder` library of one request: how many forms it has created. */
  datatype Builder = Builder(formCount: nat)

  /** The library as it is loaded at the start of a request. */
  const NewBuilder: Builder := Builder(0)

  /**
    A form descriptor. `formData` is what `set_id` read from the flash store under
    `sessionKey` (NULL when the previous request left nothing there).
   */
  datatype Form = Form(
    postUrl: string,            // the form's `action`
    formUrl: string,            // the page to redirect back to when validation fails
    ruleGroup: Option<string>,  // validation rule group; NULL until `set_rule_group`
    multipart: bool,
    attributes: Attrs,
    sessionKey: string,
    formData: Option<Post>)

  /** Arguments of one `create_form` call. */
  datatype FormSpec = FormSpec(url: Option<string>, multipart: bool, attributes: Attrs)

  /** The flash key of the form numbered `id`: "form-" followed by the decimal number. */
  function SessionKey(id: nat): string {
    "form-" + NatToString(id)
  }

  /** Different form numbers never share a flash key. */
  lemma SessionKeyInjective(m: nat, n: nat)
    ensures SessionKey(m) == SessionKey(n) <==> m == n
  {
    if SessionKey(m) == SessionKey(n) {
      assert SessionKey(m)[5..] == NatToString(m);
      assert SessionKey(n)[5..] == NatToString(n);
      NatToStringInjective(m, n);
    }
  }

  /** The flash data saved under `key`, or NULL. */
  function FlashRead(flash: Flash, key: string): (r: Option<Post>)
    ensures r.Some? <==> key in flash
    ensures r.Some? ==> r.value == flash[key]
  {
    if key in flash then Some(flash[key]) else None
  }

  /**
    `set_id`: the form takes the key "form-<id>" and loads whatever the flash store
    holds under that key; nothing else about the form changes.
   */
  function SetId(f: Form, id: nat, flash: Flash): (r: Form)
    ensures r.sessionKey == SessionKey(id)
    ensures r.formData == FlashRead(flash, SessionKey(id))
    ensures r.(sessionKey := f.sessionKey, formData := f.formData) == f
  {
    var key := SessionKey(id);
    f.(sessionKey := key, formData := FlashRead(flash, key))
  }

  /**
    `create_form`: the builder's count goes up by one and the new form is numbered
    with it. A NULL url (compared strictly, so '' is kept) posts back to the current
    URL; the redirect-back URL is always the current URL.
   */
  function CreateForm(b: Builder, spec: FormSpec, currentUrl: string, flash: Flash): (r: (Builder, Form))
    ensures r.0.formCount == b.formCount + 1
    ensures r.1.sessionKey == SessionKey(r.0.formCount)
    ensures r.1.formData == FlashRead(flash, r.1.sessionKey)
    ensures spec.url.None? ==> r.1.postUrl == currentUrl
    ensures spec.url.Some? ==> r.1.postUrl == spec.url.value
    ensures r.1.formUrl == currentUrl && r.1.ruleGroup.None?
    ensures r.1.multipart == spec.multipart && r.1.attributes == spec.attributes
  {
    var url := if spec.url.None? then currentUrl else spec.url.value;
    var blank := Form(url, currentUrl, None, spec.multipart, spec.attributes, "", None);
    var count := b.formCount + 1;
    (Builder(count), SetId(blank, count, flash))
  }

  /**
    A run of `create_form` calls on one builder, in order: the i-th form (from 0)
    is numbered `b.formCount + i + 1`.
   */
  function CreateForms(b: Builder, specs: seq<FormSpec>, currentUrl: string, flash: Flash): (r: (Builder, seq<Form>))
    ensures r.0.formCount == b.formCount + |specs|
    ensures |r.1| == |specs|
    ensures forall i :: 0 <= i < |specs| ==> r.1[i].sessionKey == SessionKey(b.formCount + i + 1)
    decreases |specs|
  {
    if specs == [] then (b, [])
    else
      var (b', forms) := CreateForms(b, specs[..|specs| - 1], currentUrl, flash);
      var (b'', form) := CreateForm(b', specs[|specs| - 1], currentUrl, flash);
      (b'', forms + [form])
  }

  /** On a freshly loaded builder the k-th form created (counting from 1) is keyed "form-k". */
  lemma CreateFormsKeys(specs: seq<FormSpec>, currentUrl: string, flash: Flash, k: nat)
    requires 1 <= k <= |specs|
    ensures CreateForms(NewBuilder, specs, currentUrl, flash).1[k - 1].sessionKey == "form-" + NatToString(k)
  {
  }

  /** No two forms created on one builder share a flash key. */
  lemma CreateFormsDistinct(b: Builder, specs: seq<FormSpec>, currentUrl: string, flash: Flash, i: nat, j: nat)
    requires i < j < |specs|
    ensures CreateForms(b, specs, currentUrl, flash).1[i].sessionKey != CreateForms(b, specs, currentUrl, flash).1[j].sessionKey
  {
    SessionKeyInjective(b.formCount + i + 1, b.formCount + j + 1);
  }

  /** The flash store holds a value for field `name` of this form (`isset($this->mFormData[$name])`). */
  predicate FlashHolds(form: Form, name: string) {
    form.formData.Some? && name in form.formData.value
  }

  /**
    `get_field_value`: a value restored from flash wins over everything; otherwise
    the value is what CodeIgniter's `set_value(name, default)` gives, passed in as
    `setValue` because that helper is not part of this model.
   */
  function GetFieldValue(form: Form, name: string, value: Option<string>,
                         setValue: (string, Option<string>) -> string): (r: string)
    ensures FlashHolds(form, name) ==> r == form.formData.value[name]
    ensures !FlashHolds(form, name) ==> r == setValue(name, value)
  {
    if FlashHolds(form, name) then form.formData.value[name] else setValue(name, value)
  }

  /** Whatever default and whatever `set_value` is in play, a flash-restored value is the one shown. */
  lemma FlashWins(form: Form, name: string, v1: Option<string>, v2: Option<string>,
                  sv1: (string, Option<string>) -> string, sv2: (string, Option<string>) -> string)
    requires FlashHolds(form, name)
    ensures GetFieldValue(form, name, v1, sv1) == GetFieldValue(form, name, v2, sv2)
  {
  }
}
