/** The signup form's submit handler: an email check, then a password match,
    and only then the remote `signup` call. */
module Signup {
  import opened Common
  import opened JsText

  /** A character the class `[^\s@]` accepts. */
  predicate Plain(c: char)
  {
    !IsWhitespace(c) && c != '@'
  }

  /** Every character of `s` from `lo` up to `hi` is in `[^\s@]`. */
  predicate PlainBetween(s: string, lo: nat, hi: nat)
    requires lo <= hi <= |s|
  {
    forall k :: lo <= k < hi ==> Plain(s[k])
  }

  /** `^[^\s@]+@[^\s@]+\.[^\s@]+$`, read off the pattern: a non-empty local part,
      `@`, a non-empty run, a dot, a non-empty run, with no whitespace and no
      other `@` anywhere. */
  ghost predicate MatchesEmailPattern(s: string)
  {
    exists i: nat, j: nat ::
      && 0 < i && i + 1 < j && j + 1 < |s|
      && s[i] == '@' && s[j] == '.'
      && PlainBetween(s, 0, i) && PlainBetween(s, i + 1, j) && PlainBetween(s, j + 1, |s|)
  }

  /** The first index of `c` in `s`. */
  function IndexOf(s: string, c: char): (r: nat)
    requires c in s
    ensures r < |s| && s[r] == c
    ensures forall k :: 0 <= k < r ==> s[k] != c
  {
    if s[0] == c then 0
    else
      assert c in s[1..] by { var k :| 0 <= k < |s| && s[k] == c; assert s[1..][k - 1] == c; }
      1 + IndexOf(s[1..], c)
  }

  /** The check as a scan: no whitespace, an `@` with something before it and no
      other `@` after it, and after it a dot that is neither the first nor the
      last character of the rest. */
  predicate IsValidEmail(s: string)
  {
    && (forall k :: 0 <= k < |s| ==> !IsWhitespace(s[k]))
    && '@' in s
    && var i := IndexOf(s, '@');
       && 0 < i
       && (forall k :: i < k < |s| ==> s[k] != '@')
       && (exists k :: i + 1 < k < |s| - 1 && s[k] == '.')
  }

  /** The scan accepts exactly the strings the regular expression matches. */
  lemma EmailCheckMatchesPattern(s: string)
    ensures IsValidEmail(s) <==> MatchesEmailPattern(s)
  {
    if IsValidEmail(s) {
      ValidEmailMatches(s);
    }
    if MatchesEmailPattern(s) {
      var i: nat, j: nat :| && 0 < i && i + 1 < j && j + 1 < |s|
                  && s[i] == '@' && s[j] == '.'
                  && PlainBetween(s, 0, i) && PlainBetween(s, i + 1, j) && PlainBetween(s, j + 1, |s|);
      PatternIsValid(s, i, j);
    }
  }

  lemma ValidEmailMatches(s: string)
    requires IsValidEmail(s)
    ensures MatchesEmailPattern(s)
  {
    var i := IndexOf(s, '@');
    var j :| i + 1 < j < |s| - 1 && s[j] == '.';
    assert PlainBetween(s, 0, i);
    assert PlainBetween(s, i + 1, j);
    assert PlainBetween(s, j + 1, |s|);
  }

  lemma PatternIsValid(s: string, i: nat, j: nat)
    requires 0 < i && i + 1 < j && j + 1 < |s|
    requires s[i] == '@' && s[j] == '.'
    requires PlainBetween(s, 0, i) && PlainBetween(s, i + 1, j) && PlainBetween(s, j + 1, |s|)
    ensures IsValidEmail(s)
  {
    assert s[i] in s;
    var r := IndexOf(s, '@');
    assert !Plain(s[r]);
    assert r == i;
    forall k | 0 <= k < |s| ensures !IsWhitespace(s[k]) {
      if k != i && k != j { assert Plain(s[k]); }
    }
  }

  /** What the form sends: the confirmation is not part of it. */
  datatype SignupRequest = SignupRequest(name: string, email: string, password: string)

  /** The form's four inputs. */
  datatype SignupForm = SignupForm(name: string, email: string, password: string, confirmPassword: string)

  /** What the handler does that a user or the server can see, in order. */
  datatype Effect = Alert(text: string) | CallSignup(request: SignupRequest) | Navigate(url: string)

  const InvalidEmailAlert := "Please enter a valid email address."
  const MismatchAlert := "Passwords do not match!"
  const CreatedAlert := "Account created successfully! Please sign in."
  const FailureFallback := "Failed to create account. Please try again."

  /** The two checks pass. */
  predicate PassesChecks(f: SignupForm)
  {
    IsValidEmail(f.email) && f.password == f.confirmPassword
  }

  /** `handleSubmit`'s effects; `reply` is how the `signup` call ends. */
  function SubmitEffects(f: SignupForm, reply: Remote<()>): (es: seq<Effect>)
    ensures |es| > 0
  {
    if !IsValidEmail(f.email) then [Alert(InvalidEmailAlert)]
    else if f.password != f.confirmPassword then [Alert(MismatchAlert)]
    else
      var call := CallSignup(SignupRequest(f.name, f.email, f.password));
      match reply
      case Ok(_) => [call, Alert(CreatedAlert), Navigate("/login")]
      case Failed(msg) => [call, Alert(if msg != "" then msg else FailureFallback)]
  }

  /** `signup` is called exactly when both checks pass, then first, once, and with
      the name, email and password as typed. */
  lemma SignupCalledIffChecksPass(f: SignupForm, reply: Remote<()>)
    ensures (exists k :: 0 <= k < |SubmitEffects(f, reply)| && SubmitEffects(f, reply)[k].CallSignup?)
            <==> PassesChecks(f)
    ensures PassesChecks(f) ==>
      SubmitEffects(f, reply)[0] == CallSignup(SignupRequest(f.name, f.email, f.password))
    ensures PassesChecks(f) ==>
      forall k :: 0 < k < |SubmitEffects(f, reply)| ==> !SubmitEffects(f, reply)[k].CallSignup?
  {
    if PassesChecks(f) {
      assert SubmitEffects(f, reply)[0].CallSignup?;
    }
  }

  /** The email is checked first: a bad email gets only its own alert, whatever
      the passwords are. */
  lemma EmailCheckedFirst(f: SignupForm, reply: Remote<()>)
    requires !IsValidEmail(f.email)
    ensures SubmitEffects(f, reply) == [Alert(InvalidEmailAlert)]
  {
  }

  /** The browser goes to `/login` exactly when both checks pass and the call succeeds. */
  lemma NavigatesIffCreated(f: SignupForm, reply: Remote<()>)
    ensures Navigate("/login") in SubmitEffects(f, reply) <==> PassesChecks(f) && reply.Ok?
  {
  }

  /** The page's state: the four inputs and the `loading` flag. */
  class SignupPage {
    var name: string
    var email: string
    var password: string
    var confirmPassword: string
    var loading: bool

    function Form(): SignupForm
      reads this
    {
      SignupForm(name, email, password, confirmPassword)
    }

    constructor ()
      ensures Form() == SignupForm("", "", "", "") && !loading
    {
      name, email, password, confirmPassword := "", "", "", "";
      loading := false;
    }

    /** `handleSubmit`. A rejected form leaves `loading` alone; a submitted one
        ends with `loading` false whether `signup` succeeded or not. */
    method HandleSubmit(reply: Remote<()>) returns (effects: seq<Effect>)
      modifies this`loading
      ensures effects == SubmitEffects(Form(), reply)
      ensures PassesChecks(Form()) ==> !loading
      ensures !PassesChecks(Form()) ==> loading == old(loading)
    {
      if !IsValidEmail(email) {
        effects := [Alert(InvalidEmailAlert)];
        return;
      }
      if password != confirmPassword {
        effects := [Alert(MismatchAlert)];
        return;
      }
      loading := true;
      effects := [CallSignup(SignupRequest(name, email, password))];
      match reply {
        case Ok(_) =>
          effects := effects + [Alert(CreatedAlert), Navigate("/login")];
        case Failed(msg) =>
          effects := effects + [Alert(if msg != "" then msg else FailureFallback)];
      }
      loading := false;
    }
  }
}
