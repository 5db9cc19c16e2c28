/**
  `Form::validate`: the submission check that either lets the caller proceed or
  sends the browser back to the form with the submitted data kept in flash.
  The reCAPTCHA answer, the rule engine's verdict and its error text are inputs.
 */
module FormValidation {
  import opened Wrappers
  import opened Php
  import opened Request
  import opened FormBuilder

  const CaptchaField := "g-recaptcha-response"
  const CaptchaFailed := "ReCAPTCHA failed."
  const Development := "development"

  /** What `validate()` returns when it returns: nothing (no submission) or TRUE. */
  datatype Verdict = NotSubmitted | Valid

  /** The CAPTCHA is checked when its response field was posted and the environment is not development. */
  predicate CaptchaRequired(post: Post, environment: string) {
    CaptchaField in post && environment != Development
  }

  /** The submission is rejected at the CAPTCHA step. */
  predicate CaptchaRejects(post: Post, environment: string, captchaOk: bool) {
    post != map[] && CaptchaRequired(post, environment) && !captchaOk
  }

  /** Save the submission under the form's key, report `message`, and go back to the form page. */
  function Reject(form: Form, post: Post, message: string): seq<Effect> {
    [SetFlash(form.sessionKey, post), SetError(message)]
  }

  /** The trace of a rejection writes the submission under the form's key and one message. */
  lemma RejectTrace(form: Form, post: Post, message: string, before: seq<Effect>)
    requires FlashWrites(before) == map[] && Errors(before) == []
    ensures FlashWrites(before + Reject(form, post, message)) == map[form.sessionKey := post]
    ensures Errors(before + Reject(form, post, message)) == [message]
  {
    var t := Reject(form, post, message);
    var head := [SetFlash(form.sessionKey, post)];
    assert t[..1] == head && head[..0] == [];
    assert FlashWrites(head) == map[form.sessionKey := post];
    assert Errors(head) == [];
    assert FlashWrites(t) == FlashWrites(head);
    assert Errors(t) == Errors(head) + [message];
    FlashWritesConcat(before, t);
    ErrorsConcat(before, t);
    assert map[] + map[form.sessionKey := post] == map[form.sessionKey := post];
  }

  /** Step 1: the reCAPTCHA round-trip, when it applies. */
  function CaptchaStep(form: Form, post: Post, environment: string, remoteAddr: string, captchaOk: bool): Run<()> {
    if CaptchaRequired(post, environment) then
      var verify := [VerifyCaptcha(post[CaptchaField], remoteAddr)];
      if captchaOk then Run(verify, Done(()))
      else Run(verify + Reject(form, post, CaptchaFailed), Exited(Redirect(form.formUrl)))
    else Run([], Done(()))
  }

  /** Step 2: the rule group check. */
  function RuleStep(form: Form, post: Post, rulesOk: bool, validationErrors: string): Run<Verdict> {
    var run := [RunRules(form.ruleGroup)];
    if rulesOk then Run(run, Done(Valid))
    else Run(run + Reject(form, post, validationErrors), Exited(Redirect(form.formUrl)))
  }

  /**
    `validate()`. An empty POST does nothing at all. Otherwise a failed CAPTCHA
    (when required) saves the POST under the form's key, reports "ReCAPTCHA failed."
    and redirects to the form page before the rules are run; a failed rule check
    does the same with the rule engine's text; a passing submission returns TRUE
    with no flash write and no message.
   */
  function Validate(form: Form, post: Post, environment: string, remoteAddr: string,
                    captchaOk: bool, rulesOk: bool, validationErrors: string): (r: Run<Verdict>)
    ensures post == map[] ==> r == Run([], Done(NotSubmitted))
    ensures r.Returned() <==> post == map[] || (!CaptchaRejects(post, environment, captchaOk) && rulesOk)
    ensures VerifiedCaptcha(r.effects) <==> post != map[] && CaptchaRequired(post, environment)
    ensures RanRules(r.effects) <==> post != map[] && !CaptchaRejects(post, environment, captchaOk)
    ensures r.Returned() ==> FlashWrites(r.effects) == map[] && Errors(r.effects) == []
    ensures !r.Returned() ==> r.RedirectedTo(form.formUrl)
    ensures !r.Returned() ==> FlashWrites(r.effects) == map[form.sessionKey := post]
    ensures CaptchaRejects(post, environment, captchaOk) ==> Errors(r.effects) == [CaptchaFailed]
    ensures !r.Returned() && !CaptchaRejects(post, environment, captchaOk) ==> Errors(r.effects) == [validationErrors]
  {
    if post == map[] then Run([], Done(NotSubmitted))
    else
      var captcha := CaptchaStep(form, post, environment, remoteAddr, captchaOk);
      var rules := RuleStep(form, post, rulesOk, validationErrors);
      var r := Then(captcha, rules);
      if CaptchaRejects(post, environment, captchaOk) then
        CaptchaRejectTrace(form, post, environment, remoteAddr, captchaOk, rulesOk, validationErrors);
        r
      else
        RuleStepTrace(form, post, environment, remoteAddr, captchaOk, rulesOk, validationErrors);
        r
  }

  /** Neither a CAPTCHA round-trip nor a rule run writes flash data or messages. */
  lemma QuietPrefix(e: seq<Effect>)
    requires |e| <= 2 && forall i :: 0 <= i < |e| ==> e[i].VerifyCaptcha? || e[i].RunRules?
    ensures FlashWrites(e) == map[] && Errors(e) == []
  {
    if e != [] {
      var e' := e[..|e| - 1];
      if e' != [] {
        assert e'[..|e'| - 1] == [];
      }
    }
  }

  /** The trace facts `Validate` promises when the CAPTCHA step rejects. */
  lemma CaptchaRejectTrace(form: Form, post: Post, environment: string, remoteAddr: string,
                           captchaOk: bool, rulesOk: bool, validationErrors: string)
    requires CaptchaRejects(post, environment, captchaOk)
    ensures var r := Then(CaptchaStep(form, post, environment, remoteAddr, captchaOk), RuleStep(form, post, rulesOk, validationErrors));
      && r.RedirectedTo(form.formUrl)
      && VerifiedCaptcha(r.effects) && !RanRules(r.effects)
      && FlashWrites(r.effects) == map[form.sessionKey := post]
      && Errors(r.effects) == [CaptchaFailed]
  {
    var r := Then(CaptchaStep(form, post, environment, remoteAddr, captchaOk), RuleStep(form, post, rulesOk, validationErrors));
    var verify := [VerifyCaptcha(post[CaptchaField], remoteAddr)];
    assert r.effects == verify + Reject(form, post, CaptchaFailed);
    QuietPrefix(verify);
    RejectTrace(form, post, CaptchaFailed, verify);
    assert r.effects[0].VerifyCaptcha?;
  }

  /** The trace facts `Validate` promises when the rule step is reached. */
  lemma RuleStepTrace(form: Form, post: Post, environment: string, remoteAddr: string,
                      captchaOk: bool, rulesOk: bool, validationErrors: string)
    requires post != map[] && !CaptchaRejects(post, environment, captchaOk)
    ensures var r := Then(CaptchaStep(form, post, environment, remoteAddr, captchaOk), RuleStep(form, post, rulesOk, validationErrors));
      && (r.Returned() <==> rulesOk)
      && (VerifiedCaptcha(r.effects) <==> CaptchaRequired(post, environment))
      && RanRules(r.effects)
      && (r.Returned() ==> FlashWrites(r.effects) == map[] && Errors(r.effects) == [])
      && (!r.Returned() ==> r.RedirectedTo(form.formUrl) && FlashWrites(r.effects) == map[form.sessionKey := post])
      && (!r.Returned() ==> Errors(r.effects) == [validationErrors])
  {
    var r := Then(CaptchaStep(form, post, environment, remoteAddr, captchaOk), RuleStep(form, post, rulesOk, validationErrors));
    var prefix: seq<Effect> := if CaptchaRequired(post, environment) then [VerifyCaptcha(post[CaptchaField], remoteAddr)] else [];
    var checks := prefix + [RunRules(form.ruleGroup)];
    QuietPrefix(checks);
    if rulesOk {
      assert r.effects == checks;
    } else {
      assert r.effects == checks + Reject(form, post, validationErrors);
      RejectTrace(form, post, validationErrors, checks);
    }
    assert r.effects[|prefix|].RunRules?;
    if CaptchaRequired(post, environment) {
      assert r.effects[0].VerifyCaptcha?;
    } else {
      assert forall i :: 0 <= i < |r.effects| ==> !r.effects[i].VerifyCaptcha?;
    }
  }

  /**
    The retry round-trip: a form created as the k-th of its request rejects a
    submission; on the next request the form created in the same position reads
    the flash that rejection wrote, and every submitted field shows what was
    submitted, whatever default or `set_value` the page supplies.
   */
  lemma RetryRestoresSubmission(b: Builder, spec: FormSpec, currentUrl: string, flash: Flash,
                                post: Post, environment: string, remoteAddr: string,
                                captchaOk: bool, rulesOk: bool, validationErrors: string)
    requires var form := CreateForm(b, spec, currentUrl, flash).1;
      !Validate(form, post, environment, remoteAddr, captchaOk, rulesOk, validationErrors).Returned()
    ensures var form := CreateForm(b, spec, currentUrl, flash).1;
      var run := Validate(form, post, environment, remoteAddr, captchaOk, rulesOk, validationErrors);
      var again := CreateForm(b, spec, currentUrl, FlashWrites(run.effects)).1;
      && again.sessionKey == form.sessionKey
      && again.formData == Some(post)
      && forall name, value: Option<string>, setValue: (string, Option<string>) -> string | name in post ::
           GetFieldValue(again, name, value, setValue) == post[name]
  {
  }
}
