# project-blank core, modelled in Dafny

This project models the request-handling core of a CodeIgniter (HMVC) application
skeleton and proves properties of that model. The core has six parts:

- **The form library** (`Form_builder` and `Form`). It numbers the forms of a request
  and gives each one a flash key, "form-<n>". Its field helpers compute each field's
  value with flash-first precedence and rewrite the `class` attribute by fixed rules.
  `validate()` either lets the caller proceed or sends the browser back to the form,
  with the submitted data saved in flash.
- **The base controller** (`MY_Controller`). It sets up the per-request context, keeps
  breadcrumbs, runs the `verify_login` and `verify_auth` gates, and assembles the
  view-data array in `render`.
- **The login gate** of `Admin_Controller` and `User_Controller` (`verifyLogin`), and
  the API-token gate of `User_Controller`.
- **`Input_model::getPostVariables`**, which trims every submitted value.
- **The allowed-domain check**, which redirects foreign hosts.
- **The XVS risk banding** of `xvs_score` and `bs4_xvs_score`.

A request's processing is a `Request.Run`: a trace of the framework calls that matter,
plus an outcome. The outcome is either a normal return or an exit. `redirect()` and
`exit` never return, so they are exits, and code after them does not run.

Several things are inputs rather than computations:

- ion_auth's answers, the reCAPTCHA verdict, the rule engine's verdict and its error
  text;
- CodeIgniter's `set_value`, `current_url()`, `uri_string()` and `base_url()`;
- `php_sapi_name()` and the session store.

PHP's `empty()`, `trim()`, `str_replace(..., '', ...)` and integer-to-string conversion are
modelled in module `Php` for the string and NULL values the core passes them. Loose `==` is
modelled for NULL-or-string operands, with digit strings compared by value; the email check
of the login gate and the toggle tests rely on that restriction (see "Left out").

Modules, one file each: `Wrappers`, `Php`, `Request`, `FormBuilder`, `FormFields`, `Xvs`,
`FormValidation`, `Controller`, `LoginGate`, `UserController`, `InputModel`,
`AllowedDomains`.

## Model

| member | source | states |
|---|---|---|
| FormBuilder.CreateForm | application/libraries/Form_builder.php:33-40 | the builder's count goes up by one and the new form is keyed with the new count; a NULL url posts to the current URL and any other url, even '', is kept; the form always redirects back to the current URL |
| FormBuilder.CreateForms | application/libraries/Form_builder.php:33-40 | after n `create_form` calls the count has grown by n and the i-th form carries the key of number count+i+1 |
| FormBuilder.CreateFormsKeys | application/libraries/Form_builder.php:33-40 | on a freshly loaded library the k-th form of the request is keyed "form-k" |
| FormBuilder.CreateFormsDistinct | application/libraries/Form_builder.php:33-40 | no two forms created on one library share a flash key |
| FormBuilder.SetId | application/libraries/Form_builder.php:72-76 | the form takes key "form-<id>" and loads exactly the flash entry under that key (NULL when there is none); no other part of the form changes |
| FormBuilder.SessionKeyInjective | application/libraries/Form_builder.php:74 | two form numbers give the same flash key if and only if they are equal |
| Php.NatToStringInjective | application/libraries/Form_builder.php:74 | the decimal text of an integer in `'form-'.$id` is one-to-one, both directions |
| Php.ParseNatToString | application/libraries/Form_builder.php:74 | reading back the decimal rendering of n gives n |
| FormBuilder.GetFieldValue | application/libraries/Form_builder.php:113-117 | a value stored for the field in the form's flash data wins; otherwise the value is `set_value(name, default)` |
| FormBuilder.FlashWins | application/libraries/Form_builder.php:113-117 | once flash holds the field, neither the default nor `set_value` can change the shown value |
| FormFields.FieldText | application/libraries/Form_builder.php:123-129 | a text input whose id and name are the field name, whose value follows the flash precedence and whose attributes are the caller's |
| FormFields.FieldEmail | application/libraries/Form_builder.php:132-137 | the same as `field_text`, with input type email |
| FormFields.FieldPassword | application/libraries/Form_builder.php:140-145 | a password input never shows a flash-restored value; its value is the argument, NULL shown as '' |
| FormFields.FieldTextarea | application/libraries/Form_builder.php:148-158 | the textarea has an id exactly when `$extra['id']` is set and not empty, and that id is then the given one; its value follows flash precedence |
| FormFields.FieldUpload | application/libraries/Form_builder.php:161-166 | a file input named and identified by the field name, whose value follows flash precedence |
| FormFields.FieldHidden | application/libraries/Form_builder.php:169-174 | a hidden input never shows a flash-restored value; NULL is shown as '' |
| FormFields.PasswordAndHiddenIgnoreFlash | application/libraries/Form_builder.php:140-174 | password and hidden inputs come out the same whatever flash data the form holds |
| FormFields.MergeClass | application/libraries/Form_builder.php:352-363 | a caller's class is kept with the suffix appended, a missing class becomes the fallback, and every other attribute is untouched |
| FormFields.Bs3Text | application/libraries/Form_builder.php:352-363 | a labelled text input for the field; the class is the caller's plus " form-control", or "form-control" alone; other attributes and the flash-first value are kept; the input is submitted under the field name, which is also its id |
| FormFields.Bs3TextSimple | application/libraries/Form_builder.php:365-375 | an unlabelled text input; a caller's class is kept as given, otherwise it is "form-control-sm"; the input is submitted under the field name, which is also its id |
| FormFields.Bs3DropdownSimple | application/libraries/Form_builder.php:378-389 | an unlabelled dropdown with the given options and selection; a caller's class is kept, otherwise it is "form-control" |
| FormFields.Bs3TextareaSimple | application/libraries/Form_builder.php:391-400 | an unlabelled textarea; a caller's class is kept, otherwise it is "form-control input-sm"; the textarea is submitted under the field name and has an id exactly when `$extra['id']` is set and not empty |
| FormFields.Bs3TextSimple2 | application/libraries/Form_builder.php:402-412 | an unlabelled text input whose class gets " form-control input-sm" appended, or becomes "form-control input-sm" when there is none; the input is submitted under the field name, which is also its id |
| FormFields.Bs3Email | application/libraries/Form_builder.php:414-418 | a labelled email input whose class is always exactly "form-control", whatever the caller passed; `bs4_email` is the same; the input is submitted under the field name, which is also its id |
| FormFields.Bs3Password | application/libraries/Form_builder.php:420-424 | a labelled password input, class exactly "form-control", with no flash-restored value; `bs4_password` is the same; the input is submitted under the field name, which is also its id |
| FormFields.Bs3Textarea | application/libraries/Form_builder.php:426-435 | a labelled textarea under the merge rule (" form-control" appended, or "form-control"); `bs4_textarea` is the same; the textarea is submitted under the field name and has an id exactly when `$extra['id']` is set and not empty |
| FormFields.Bs3Submit | application/libraries/Form_builder.php:437-441 | a submit button with the given caption whose class is the `$class` argument; `bs4_submit` is the same |
| FormFields.Bs3Dropdown | application/libraries/Form_builder.php:442-448 | a labelled dropdown with the given options and selection whose class is always exactly "form-control" |
| FormFields.Bs3Timepicker | application/libraries/Form_builder.php:312-334 | a value that is NULL or '' gives way to the default, while "0" is kept; the class is forced to "form-control timepicker"; flash data still wins; `bs3_timepicker_sm` decides the same way; the input is submitted under the field name, which is also its id |
| FormFields.TimepickerLooseNull | application/libraries/Form_builder.php:314-318 | without flash data an empty time shows the default, and "0" is passed on as "0" |
| FormFields.Bs4Input | application/libraries/Form_builder.php:678-694 | always a text input, whatever type the caller asked for; the class follows the merge rule; the input is submitted under the field name, which is also its id |
| FormFields.Bs4MultiDropdown | application/libraries/Form_builder.php:584-594 | the dropdown carries the given options and selection, the label as placeholder, `multiple`, full width and id = name; the class is the caller's or "form-control"; all other caller attributes survive |
| FormFields.Bs4Dropdown | application/libraries/Form_builder.php:596-634 | there is a label exactly when the label text is not empty; `$extra` reaches the dropdown unchanged |
| FormFields.Bs4Text | application/libraries/Form_builder.php:505-570 | `required` is on exactly when the key is present; the type is the given one (even '') or "text"; pattern and id appear exactly when non-empty; the value is the raw argument, never the flash value |
| FormFields.Bs4TextVersusBs4Input | application/libraries/Form_builder.php:505-570 | unlike `bs4_input`, `bs4_text` shows the same input whatever flash data the form holds, shows the raw argument where `bs4_input` shows the restored value, and adds no class where `bs4_input` adds "form-control" |
| FormFields.Bs3ToggleButton | application/libraries/Form_builder.php:218-247 | the box is checked exactly when the value is loosely equal to 1; the box and the companion `<name>_status` input both carry "checked" or '' |
| FormFields.Bs3Toggle | application/libraries/Form_builder.php:249-278 | checked exactly when the value is loosely equal to 1; the box and a hidden input of the same name carry the raw value |
| FormFields.Bs3ToggleSwitch | application/libraries/Form_builder.php:280-309 | a single named checkbox, checked exactly when the value is loosely equal to 1, with id `$extra['id']` or the name; `bs4_toggle_switch` is the same |
| FormFields.TogglesAgree | application/libraries/Form_builder.php:218-309 | the three toggles that compare with 1 agree on checked state, id and class for every input |
| FormFields.ToggleCheckedValues | application/libraries/Form_builder.php:280-309 | "1" and "01" check the switch; NULL, '' and "0" leave it unchecked |
| FormFields.ToggleSwitch | application/libraries/Form_builder.php:454-474 | checked exactly when the value is loosely equal to the on-value; a hidden input of the same name submits the off-value; the id is always "switchery0" |
| Xvs.XvsScore | application/libraries/Form_builder.php:705-733 | a missing or non-numeric score gives "No Data", "-", "info"; otherwise HIGH if and only if the score is at least 0.667 (INF included), MEDIUM if and only if it is in [0.334, 0.667), LOW if and only if it is below 0.334 (-INF included); NAN fails every test and reaches the final else, "info" and "-"; each risk has its own colour; `bs4_xvs_score` bands the same way |
| Xvs.BandsPartition | application/libraries/Form_builder.php:714-731 | every numeric score other than NAN lands in exactly one of the three bands; a missing score and NAN, and nothing else, get "-" |
| Xvs.RiskMonotone | application/libraries/Form_builder.php:714-731 | a higher score (with -INF lowest and INF highest) never gets a lower risk |
| FormValidation.Validate | application/libraries/Form_builder.php:1039-1091 | an empty POST does nothing. Otherwise it returns exactly when the CAPTCHA is not rejected and the rules pass; a return leaves no flash data and no message. A rejection saves the POST under the form's key, reports one message ("ReCAPTCHA failed." or the rule text) and redirects to the form page. The CAPTCHA is checked exactly when it was posted outside development, and the rules run exactly when it did not fail |
| FormValidation.CaptchaRejectTrace | application/libraries/Form_builder.php:1046-1066 | a failed CAPTCHA writes the POST under the form's key, reports "ReCAPTCHA failed.", redirects to the form page, and never runs the rules |
| FormValidation.RuleStepTrace | application/libraries/Form_builder.php:1069-1089 | past the CAPTCHA, the request returns exactly when the rules pass; a failure saves the POST and reports the rule engine's text |
| FormValidation.RejectTrace | application/libraries/Form_builder.php:1073-1083 | a rejection leaves the POST under the form's key and exactly one error message |
| FormValidation.RetryRestoresSubmission | application/libraries/Form_builder.php:1073-1083 | after a rejection, the form created in the same position on the next request reads back the submission, and every submitted field shows its submitted value |
| Controller.Setup | application/core/MY_Controller.php:55-97 | menus, meta data and page rules are the configured arrays or empty; scripts and stylesheets are copied as they are; a "Home" crumb exists exactly when the controller is not `home`; the user is loaded only when ion_auth is loaded and reports a login; the main group is the first group's name when that is not empty |
| Controller.MainGroup | application/core/MY_Controller.php:88-92 | there is a main group exactly when a first group exists and its name is not empty, and it is then that name |
| Controller.OrEmpty | application/core/MY_Controller.php:62-69 | a missing configuration array reads as the empty array; a present one is kept |
| Controller.LoginTarget | application/core/MY_Controller.php:104-105 | the redirect url is used unless it is NULL or '', in which case the site's login url is used |
| Controller.VerifyLogin | application/core/MY_Controller.php:100-109 | returns if and only if a user is logged in; otherwise it redirects to the login target |
| Controller.VerifyAuth | application/core/MY_Controller.php:114-123 | returns if and only if a user is logged in and in the group; otherwise it redirects to the login target |
| Controller.VerifyAuthRefinesVerifyLogin | application/core/MY_Controller.php:100-123 | with a positive group answer `verify_auth` is `verify_login`; passing `verify_auth` implies passing `verify_login`; where `verify_login` redirects, `verify_auth` gives the same redirect |
| Controller.ViewData | application/core/MY_Controller.php:128-172 | for a given `current_uri`: every rendered key is overwritten, the page's other keys pass through unchanged, and `user` keeps the page's non-empty value or else takes the logged-in user |
| Controller.Rendered | application/core/MY_Controller.php:141-167 | `render` writes exactly the eighteen fixed keys, with `current_uri` the given string |
| Controller.RenderedUriOnly | application/core/MY_Controller.php:141-167 | of the values `render` writes, only `current_uri` depends on the URI, and it is the given string |
| Controller.ViewDataUriOnly | application/core/MY_Controller.php:128-172 | view data built for two URIs have the same keys and agree everywhere except `current_uri` |
| Controller.RenderViewData | application/core/MY_Controller.php:128-172 | the view data as written: the same keys and pass-through rules, with `current_uri` computed by `str_replace` (`Controller.CurrentUri`) |
| Controller.RenderViewDataIntended | application/core/MY_Controller.php:128-172 | the view data with the corrected URI: it differs from the as-written view data only in `current_uri`, which is the module-relative path |
| Controller.RenderAgreesWithIntended | application/core/MY_Controller.php:147 | on "<module>/<rest>" whose rest does not mention "<module>/" again, the as-written and corrected view data are equal |
| Controller.RenderUserRule | application/core/MY_Controller.php:159-161 | a page's own user value is kept, an empty one is replaced, and a missing one is filled from the session's user |
| Controller.RenderedLinks | application/core/MY_Controller.php:147-167 | the view sees the URI with every "<module>/" deleted, the module base URL, the analytics id and the inner view; the corrected view data sees the module-relative URI instead |
| Controller.ModuleBaseUrl | application/core/MY_Controller.php:153 | outside a module the base URL is the site's; inside one it is site base + module + "/" |
| Controller.GaId | application/core/MY_Controller.php:163 | the analytics id is '' when the configuration's is missing or empty, and the configured one otherwise |
| Controller.CurrentUri | application/core/MY_Controller.php:147 | the URI as written: kept when the module is empty or never mentioned, never longer than the input, and at least one module prefix shorter when it starts with "<module>/" |
| Controller.CurrentUriNoModule | application/core/MY_Controller.php:147 | outside any module the URI is exposed verbatim |
| Controller.CurrentUriStripsModule | application/core/MY_Controller.php:147 | "<module>/<rest>" becomes "<rest>" when the rest does not mention "<module>/" again |
| Controller.CurrentUriWithoutModulePath | application/core/MY_Controller.php:147 | a URI that never mentions "<module>/" is exposed verbatim |
| Controller.CurrentUriDeletesInnerOccurrence | application/core/MY_Controller.php:147 | in module "admin", "admin/subadmin/list" is exposed as "sublist" |
| Controller.ModuleRelativeUri | application/core/MY_Controller.php:147 | only a leading "<module>/" is removed, and putting it back gives the URI again |
| Controller.ModuleRelativeUriRoundTrip | application/core/MY_Controller.php:147 | stripping and restoring the module prefix is the identity for every rest of the path |
| Controller.CurrentUriAgreesWithModuleRelative | application/core/MY_Controller.php:147 | the as-written and corrected URI agree whenever the rest of the path does not mention the module again |
| Php.RemoveAllLength | application/core/MY_Controller.php:147 | `str_replace` with an empty replacement shortens the URI by a whole number of needle lengths |
| Controller.PushBreadcrumb | application/core/MY_Controller.php:190-198 | the entry goes last when appending and first otherwise; the existing entries keep their order |
| Controller.PushBreadcrumbCommutes | application/core/MY_Controller.php:190-198 | appending one entry and prepending another give the same list in either order |
| LoginGate.IntegrityChecks | application/core/Admin_Controller.php:27-35 | the session passes exactly when the user row's email is loosely equal to the session's and the id is not empty; otherwise the user is logged out and sent to the module root |
| LoginGate.VerifyLoginAsWritten | application/core/Admin_Controller.php:14-37 | never returns and never logs anyone out: an anonymous visitor goes to the login target, a logged-in user to the given url (NULL being the site root); the copy in `User_Controller` is identical |
| LoginGate.IntegrityChecksUnreachable | application/core/Admin_Controller.php:27-35 | no trace of the gate as written contains a logout |
| LoginGate.VerifyLoginIntended | application/core/User_Controller.php:40-48 | returns if and only if a user is logged in and the session is intact; an anonymous visitor goes to the login target; a broken session is logged out and sent to the module root |
| LoginGate.AnonymousVisitorsAgree | application/core/Admin_Controller.php:16-21 | for anonymous visitors, the gate as written and the intended gate give the same run |
| LoginGate.LoggedInUserBounced | application/core/Admin_Controller.php:23-24 | a logged-in user with an intact session is let through by the intended gate but redirected to the site root by the gate as written |
| LoginGate.ConstructAsWritten | application/core/Admin_Controller.php:8-12 | the constructor never reaches an action: a logged-in user goes to the site root and an anonymous one to the login url; the `User_Controller` constructor is identical |
| LoginGate.Construct | application/core/Admin_Controller.php:8-12 | with the intended gate, the action runs with the set-up context exactly when a user is logged in with an intact session |
| LoginGate.RowEmail | application/core/Admin_Controller.php:27 | the row's email is NULL exactly when there is no user row |
| UserController.VerifyToken | application/core/User_Controller.php:14-19 | returns if and only if the session holds an `X_API_TOKEN` that is not empty() ('' and '0' count as empty); otherwise it redirects to the login url |
| UserController.ZeroTokenRefused | application/core/User_Controller.php:15 | a token of "0" is refused like a missing one, and any other non-empty token passes |
| InputModel.EffectivePost | application/models/Input_model.php:11-13 | a NULL or empty argument is replaced by the request's POST data; any other argument is used as given |
| InputModel.GetPostVariables | application/models/Input_model.php:9-24 | NULL exactly when there is nothing to clean; otherwise the same keys, each value trimmed |
| InputModel.ValuesTrimmed | application/models/Input_model.php:19 | every returned value is trimmed and is the submitted value with only trim characters cut from its ends |
| InputModel.GetPostVariablesIdempotent | application/models/Input_model.php:9-24 | cleaning already-cleaned data changes nothing |
| Php.TrimSplit | application/models/Input_model.php:19 | `trim` only removes whitespace/NUL characters from the two ends, and its result has none at either end |
| Php.TrimIdempotent | application/models/Input_model.php:19 | trimming twice is the same as trimming once |
| AllowedDomains.AllowedDomains | application/config/_allowed_domains.php:4-6 | the only allowed host is the application's URL |
| AllowedDomains.CheckHost | application/config/_allowed_domains.php:8-22 | on the command line nothing changes; an allowed host becomes the https base URL; any other host gets a 301 and a Location header to the default domain (NULL, rendered as '', when `$default_domain` is unset), then the script stops |
| AllowedDomains.LocationHeader | application/config/_allowed_domains.php:15 | the Location line is the fixed prefix "Location: https://" followed by the domain |
| AllowedDomains.UnsetDefaultDomainRedirect | application/config/_allowed_domains.php:13-17 | `$default_domain` is never assigned in the file, so when nothing else sets it a foreign host is sent to "Location: https://" |
| AllowedDomains.WebRequestContinuesIffAllowed | application/config/_allowed_domains.php:8-22 | a web request continues if and only if its host is the application's URL, and then the base URL names that host |

## Left out

- `bs4_email`, `bs4_password`, `bs4_textarea`, `bs4_submit`, `bs4_toggle_switch`, `bs3_timepicker_sm` and `bs4_xvs_score` (application/libraries/Form_builder.php:636-646, 572-581, 670-674, 475-504, 336-349, 801-829): they differ from their Bootstrap 3 or plain counterparts only in markup, so each is modelled by its counterpart's member.
- The `User_Controller` copies of `verifyLogin` and of the constructor (application/core/User_Controller.php:8-12, 27-50): they are the same code as `Admin_Controller`'s, so `LoginGate` models them once.
- HTML markup: the helpers' output is modelled as the arguments they pass to CodeIgniter's form helpers (kind, id, name, value, attributes), not as strings.
- `field_recaptcha`, `open`, `close`, `messages`, `guage`, `bs4_datepicker_no_time`, `btn_submit`, `btn_reset` and `field_dropdown`: these only produce markup. `btn_submit` and `field_dropdown` appear only as record constructors inside other widgets; no modelled widget uses `btn_reset`.
- `bs3_weekly_start_end`: its body is empty.
- `set_rule_group`, `set_post_url` and `set_form_url`: plain setters; they are datatype updates of `Form` fields.
- `render_json`: its output buffering and JSON encoding are left out.
- `render`'s loading of the three views: the model stops at the view-data array that is passed to them.
- The title auto-generation block in `render`: it is commented out in the code.
- `User_Controller::render`: it only delegates to the base class's.
- `mLoginUrl` in both controllers and the `$uri` computed in `_setup`: both are assigned but never read.
- The language and timezone members of `MY_Controller`: none of the modelled operations reads them.
- ion_auth, the session store, reCAPTCHA and the rule engine: their answers are parameters.
- `in_group`'s group matching: it is the boolean parameter of `Controller.VerifyAuth`.
- `set_value`: an uninterpreted function parameter.
- PHP's loose `==` is modelled for NULL-or-string operands only. Digit strings compare by value and everything else compares as text. Signs, decimal points, exponents and leading or trailing blanks in numeric strings are not modelled, so `"1 "`, which PHP 8 takes as equal to 1, leaves a toggle unchecked here.
- Xvs.XvsScore: follows PHP 8 comparison. In PHP 7 the test `0 == "No Data"` is true, so a score of exactly 0 would show "No Data". A finite score is an exact real, so the binary rounding of 0.667, 0.334 and of the percentage is not modelled, nor is the card's number formatting. The float specials INF, -INF and NAN are modelled; NAN is what reaches the final `else`.
- InputModel.GetPostVariables: POST values are strings only. A field posted as an array (`name[]`, as a `bs4_multi_dropdown` with `multiple` submits) reaches `trim()` as an array, which throws a TypeError in PHP 8 (PHP 7 warns and stores NULL); that path is not modelled.
- `bs4_text`'s `data-widget` entry is read but never used, so it is not modelled.
- `bs4_input`'s computed `type` is not modelled, because the input is always a text input.
- `bs4_dropdown`'s computed `required` and `type` are not modelled, because neither reaches the dropdown.
- `field_text`'s default `$extra`, `array('class' => 'form-control')`, applies only when the argument is omitted; the model always takes the attribute array explicitly.
- FormFields.Bs3Timepicker: values are strings or NULL. An integer 0, which `== NULL` also matches, is not modelled; under PHP 8 the string "0" does not match.
- Controller.Setup: `class_exists('ion_auth')` is the `loaded` flag of `IonAuth`.
- Controller.Setup: the ion_auth user row is given, not fetched.
- Controller.LoginTarget: the `$redirect_url==NULL` test is modelled only for a NULL or string argument.
- LoginGate.VerifyLoginAsWritten: `redirect()` with a NULL argument is the site root ''; CodeIgniter's URL building is not modelled.

## Findings

Each finding has two members: one that models the code as written and exhibits the discrepancy, and a corrected one about which the intended property is proved. The constructor `LoginGate.Construct` uses the intended gate. `Controller.RenderViewData` builds the view data as written, with `Controller.CurrentUri`; `Controller.RenderViewDataIntended` builds it with the corrected URI, and `Controller.RenderAgreesWithIntended` shows the two agree whenever the module is named only at the head of the path.

| source | as written | input that shows it | evidently intended | confidence | as-written member | corrected member |
|---|---|---|---|---|---|---|
| application/core/Admin_Controller.php:16-35 (same code at application/core/User_Controller.php:29-48) | both branches of the login test call `redirect()`, so a logged-in user is always sent to the site root and the email and id checks never run | a logged-in user with id "1" whose row email equals the session email "a@b.c": redirected to "" | a logged-in user with an intact session passes; the email and id checks log out a broken session | not executed | LoginGate.LoggedInUserBounced | LoginGate.VerifyLoginIntended |
| application/core/MY_Controller.php:147 | `str_replace($module.'/', '', uri_string())` deletes every occurrence of "<module>/", including ones inside the path | module "admin", URI "admin/subadmin/list": exposed as "sublist" | only the leading "<module>/" is removed, giving "subadmin/list" | not executed | Controller.CurrentUriDeletesInnerOccurrence | Controller.ModuleRelativeUri |
