/**
  The shape of one request's processing. CodeIgniter's `redirect()` and PHP's `exit`
  never return: they are modelled as the terminal outcome `Exited`. The framework calls
  whose happening matters (the CAPTCHA round-trip, the rule engine, flash writes, error
  messages, logout, raw headers) are recorded, in order, as a trace of effects.
 */
module Request {
  import opened Wrappers

  /** Submitted form data: field name to submitted text. */
  type Post = map<string, string>

  /** The session's flash store: key to the data saved under it. */
  type Flash = map<string, Post>

  datatype Effect =
    | VerifyCaptcha(response: string, remoteAddr: string)  // reCAPTCHA `verify` call
    | RunRules(ruleGroup: Option<string>)                  // `form_validation->run`
    | SetFlash(key: string, data: Post)                    // `session->set_flashdata`
    | SetError(message: string)                            // `system_message->set_error`
    | Logout                                               // `ion_auth->logout`
    | Header(line: string)                                 // `header(...)`

  datatype Exit =
    | Redirect(uri: string)  // `redirect($uri)`; a NULL argument is the site root ""
    | Terminate              // a bare `exit`

  datatype Outcome<T> = Done(value: T) | Exited(exit: Exit)

  datatype Run<T> = Run(effects: seq<Effect>, outcome: Outcome<T>) {
    predicate Returned() { outcome.Done? }
    predicate RedirectedTo(uri: string) { outcome == Exited(Redirect(uri)) }
  }

  /**
    Statement sequencing: `next` runs only when `first` returned normally; once
    `first` has exited, nothing of `next` happens.
   */
  function Then<T>(first: Run<()>, next: Run<T>): (r: Run<T>)
    ensures first.outcome.Exited? ==> r == Run(first.effects, Exited(first.outcome.exit))
    ensures first.outcome.Done? ==> r == Run(first.effects + next.effects, next.outcome)
  {
    match first.outcome
    case Exited(e) => Run(first.effects, Exited(e))
    case Done(_) => Run(first.effects + next.effects, next.outcome)
  }

  /**
    The flash data a trace leaves for the next request: every `SetFlash` in order,
    a later write to the same key replacing an earlier one.
   */
  function FlashWrites(effects: seq<Effect>): Flash
    decreases |effects|
  {
    if effects == [] then map[]
    else
      var before := FlashWrites(effects[..|effects| - 1]);
      match effects[|effects| - 1]
      case SetFlash(k, d) => before[k := d]
      case _ => before
  }

  /** The error messages a trace enqueues, in order. */
  function Errors(effects: seq<Effect>): seq<string>
    decreases |effects|
  {
    if effects == [] then []
    else
      var before := Errors(effects[..|effects| - 1]);
      match effects[|effects| - 1]
      case SetError(m) => before + [m]
      case _ => before
  }

  predicate VerifiedCaptcha(effects: seq<Effect>) {
    exists i :: 0 <= i < |effects| && effects[i].VerifyCaptcha?
  }

  predicate RanRules(effects: seq<Effect>) {
    exists i :: 0 <= i < |effects| && effects[i].RunRules?
  }

  predicate LoggedOut(effects: seq<Effect>) {
    exists i :: 0 <= i < |effects| && effects[i] == Logout
  }

  /** Flash writes compose: the later trace's writes override the earlier one's. */
  lemma {:induction false} FlashWritesConcat(a: seq<Effect>, b: seq<Effect>)
    ensures FlashWrites(a + b) == FlashWrites(a) + FlashWrites(b)
    decreases |b|
  {
    if b == [] {
      assert a + b == a;
    } else {
      var b' := b[..|b| - 1];
      FlashWritesConcat(a, b');
      assert (a + b)[..|a + b| - 1] == a + b';
    }
  }

  /** Error messages compose by concatenation. */
  lemma {:induction false} ErrorsConcat(a: seq<Effect>, b: seq<Effect>)
    ensures Errors(a + b) == Errors(a) + Errors(b)
    decreases |b|
  {
    if b == [] {
      assert a + b == a;
    } else {
      var b' := b[..|b| - 1];
      ErrorsConcat(a, b');
      assert (a + b)[..|a + b| - 1] == a + b';
    }
  }
}
