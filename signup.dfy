/** The sign-up form: per-field validation producing an error record and an overall
    verdict, the input change handler, and the guards in front of the sign-up call. */
module Signup {
  import opened Text

  datatype FormField = Name | Email | Mobile | Password | ConfirmPassword

  /** FormData and FormErrors have the same shape: one string per input. */
  datatype Form = Form(name: string, email: string, mobile: string, password: string, confirmPassword: string)
  {
    function Get(f: FormField): string {
      match f
      case Name => name
      case Email => email
      case Mobile => mobile
      case Password => password
      case ConfirmPassword => confirmPassword
    }

    /** `{ ...prev, [f]: v }`: input `f` becomes `v`, the others keep their values. */
    function With(f: FormField, v: string): (r: Form)
      ensures r.Get(f) == v
      ensures forall g :: g != f ==> r.Get(g) == Get(g)
    {
      match f
      case Name => this.(name := v)
      case Email => this.(email := v)
      case Mobile => this.(mobile := v)
      case Password => this.(password := v)
      case ConfirmPassword => this.(confirmPassword := v)
    }
  }

  /** Every input empty; as an error record, no error at all. */
  const Blank: Form := Form("", "", "", "", "")

  /** Matches `[^\s@]*`: no white space and no '@'. */
  predicate Plain(s: string) {
    forall i :: 0 <= i < |s| ==> !IsWhitespace(s[i]) && s[i] != '@'
  }

  /** The email pattern `^[^\s@]+@[^\s@]+\.[^\s@]+$` read as a regular expression:
      there is a way to cut the whole string into a non-empty plain local part, '@',
      a non-empty plain run, '.', and a non-empty plain run. */
  ghost predicate MatchesEmailPattern(s: string): (ok: bool)
    ensures ok ==> |s| >= 5
  {
    exists a, b :: 0 < a && a + 1 < b && b + 1 < |s| && s[a] == '@' && s[b] == '.'
                   && Plain(s[..a]) && Plain(s[a + 1..b]) && Plain(s[b + 1..])
  }

  /** The same check as a direct scan: no white space anywhere, exactly one '@' and not
      in first place, and a '.' after it with at least one character on each side. */
  predicate LooksLikeEmail(s: string): (ok: bool)
    ensures ok ==> |s| >= 5
  {
    && (forall i :: 0 <= i < |s| ==> !IsWhitespace(s[i]))
    && exists a :: 0 < a < |s| && s[a] == '@'
                   && (forall i :: 0 <= i < |s| && i != a ==> s[i] != '@')
                   && exists b :: a + 1 < b < |s| - 1 && s[b] == '.'
  }

  lemma ScanImpliesPattern(s: string)
    requires LooksLikeEmail(s)
    ensures MatchesEmailPattern(s)
  {
    var a :| 0 < a < |s| && s[a] == '@'
             && (forall i :: 0 <= i < |s| && i != a ==> s[i] != '@')
             && exists b :: a + 1 < b < |s| - 1 && s[b] == '.';
    var b :| a + 1 < b < |s| - 1 && s[b] == '.';
    var head, mid, tail := s[..a], s[a + 1..b], s[b + 1..];
    assert Plain(head) by {
      forall i | 0 <= i < |head| ensures !IsWhitespace(head[i]) && head[i] != '@' {
        assert head[i] == s[i];
      }
    }
    assert Plain(mid) by {
      forall i | 0 <= i < |mid| ensures !IsWhitespace(mid[i]) && mid[i] != '@' {
        assert mid[i] == s[a + 1 + i];
      }
    }
    assert Plain(tail) by {
      forall i | 0 <= i < |tail| ensures !IsWhitespace(tail[i]) && tail[i] != '@' {
        assert tail[i] == s[b + 1 + i];
      }
    }
  }

  lemma PatternImpliesScan(s: string)
    requires MatchesEmailPattern(s)
    ensures LooksLikeEmail(s)
  {
    var a, b :| 0 < a && a + 1 < b && b + 1 < |s| && s[a] == '@' && s[b] == '.'
                && Plain(s[..a]) && Plain(s[a + 1..b]) && Plain(s[b + 1..]);
    var head, mid, tail := s[..a], s[a + 1..b], s[b + 1..];
    forall i | 0 <= i < |s| ensures !IsWhitespace(s[i]) && (i != a ==> s[i] != '@') {
      if i < a {
        assert s[i] == head[i];
      } else if a < i < b {
        assert s[i] == mid[i - a - 1];
      } else if b < i {
        assert s[i] == tail[i - b - 1];
      }
    }
  }

  lemma EmailCheckMatchesPattern(s: string)
    ensures LooksLikeEmail(s) <==> MatchesEmailPattern(s)
  {
    if LooksLikeEmail(s) {
      ScanImpliesPattern(s);
    }
    if MatchesEmailPattern(s) {
      PatternImpliesScan(s);
    }
  }

  /** The pattern needs an '@', which is not white space, so a matching email is never blank. */
  lemma PatternNotBlank(s: string)
    ensures MatchesEmailPattern(s) ==> Trim(s) != ""
  {
    if MatchesEmailPattern(s) {
      var a, b :| 0 < a && a + 1 < b && b + 1 < |s| && s[a] == '@' && s[b] == '.'
                  && Plain(s[..a]) && Plain(s[a + 1..b]) && Plain(s[b + 1..]);
      assert !IsWhitespace(s[a]);
    }
  }

  /** The name passes when it has a non-blank character and at least two characters;
      the "required" message is reserved for a blank name. */
  function NameError(name: string): (msg: string)
    ensures msg == "" <==> Trim(name) != "" && |name| >= 2
    ensures msg == "Name is required" <==> Trim(name) == ""
    ensures msg == "Name must be at least 2 characters" <==> Trim(name) != "" && |name| < 2
  {
    if Trim(name) == "" then "Name is required"
    else if |name| < 2 then "Name must be at least 2 characters"
    else ""
  }

  /** The email passes exactly when the pattern matches it; a blank email gets the
      "required" message and any other failure the "valid address" one. */
  function EmailError(email: string): (msg: string)
    ensures msg == "" <==> MatchesEmailPattern(email)
    ensures msg == "Email is required" <==> Trim(email) == ""
    ensures msg == "Enter a valid email address" <==> Trim(email) != "" && !MatchesEmailPattern(email)
  {
    EmailCheckMatchesPattern(email);
    PatternNotBlank(email);
    if Trim(email) == "" then "Email is required"
    else if !LooksLikeEmail(email) then "Enter a valid email address"
    else ""
  }

  /** The mobile passes on length alone: the digits pattern declared beside this rule
      is never applied, so ten characters of any kind pass. */
  function MobileError(mobile: string): (msg: string)
    ensures msg == "" <==> |mobile| >= 10
    ensures msg == "Mobile is required" <==> mobile == ""
    ensures msg == "Enter a valid mobile number" <==> 0 < |mobile| < 10
  {
    if mobile == "" then "Mobile is required"
    else if |mobile| < 10 then "Enter a valid mobile number"
    else ""
  }

  /** The password passes when it has at least six characters. */
  function PasswordError(password: string): (msg: string)
    ensures msg == "" <==> |password| >= 6
    ensures msg == "Password is required" <==> password == ""
    ensures msg == "Password must be at least 6 characters" <==> 0 < |password| < 6
  {
    if password == "" then "Password is required"
    else if |password| < 6 then "Password must be at least 6 characters"
    else ""
  }

  /** The confirmation passes when it is present and equal to the password; a present
      one that differs gets the "do not match" message. */
  function ConfirmError(password: string, confirm: string): (msg: string)
    ensures msg == "" <==> confirm != "" && confirm == password
    ensures msg == "Passwords do not match" <==> confirm != "" && confirm != password
    ensures msg == "Please confirm your password" <==> confirm == ""
  {
    if confirm == "" then "Please confirm your password"
    else if password != confirm then "Passwords do not match"
    else ""
  }

  /** What an acceptable sign-up looks like, stated independently of the messages:
      a name with a non-blank character and at least two characters, an email the
      pattern matches, a mobile of at least ten characters, a password of at least
      six, and a confirmation equal to the password. */
  ghost predicate MeetsRules(d: Form): (ok: bool)
    ensures ok ==> |d.name| >= 2 && |d.email| >= 5 && |d.mobile| >= 10 && |d.confirmPassword| >= 6
  {
    && Trim(d.name) != "" && |d.name| >= 2
    && MatchesEmailPattern(d.email)
    && |d.mobile| >= 10
    && |d.password| >= 6
    && d.confirmPassword == d.password
  }

  /** The error record `validate` stores for the given form data: it is empty exactly
      when every rule holds. */
  function ErrorsFor(d: Form): (e: Form)
    ensures e == Blank <==> MeetsRules(d)
  {
    Form(NameError(d.name), EmailError(d.email), MobileError(d.mobile),
         PasswordError(d.password), ConfirmError(d.password, d.confirmPassword))
  }

  /** One step of validate: the name rule fills the name error and may clear the verdict. */
  method CheckName(d: Form, errors: Form, valid: bool) returns (errors': Form, valid': bool)
    requires |errors.name| == 0
    ensures errors' == errors.(name := NameError(d.name))
    ensures valid' <==> valid && NameError(d.name) == ""
  {
    errors', valid' := errors, valid;
    if Trim(d.name) == "" {
      errors' := errors'.(name := "Name is required");
      valid' := false;
    } else if |d.name| < 2 {
      errors' := errors'.(name := "Name must be at least 2 characters");
      valid' := false;
    }
  }

  method CheckEmail(d: Form, errors: Form, valid: bool) returns (errors': Form, valid': bool)
    requires |errors.email| == 0
    ensures errors' == errors.(email := EmailError(d.email))
    ensures valid' <==> valid && EmailError(d.email) == ""
  {
    errors', valid' := errors, valid;
    if Trim(d.email) == "" {
      errors' := errors'.(email := "Email is required");
      valid' := false;
    } else if !LooksLikeEmail(d.email) {
      errors' := errors'.(email := "Enter a valid email address");
      valid' := false;
    }
  }

  method CheckMobile(d: Form, errors: Form, valid: bool) returns (errors': Form, valid': bool)
    requires |errors.mobile| == 0
    ensures errors' == errors.(mobile := MobileError(d.mobile))
    ensures valid' <==> valid && MobileError(d.mobile) == ""
  {
    errors', valid' := errors, valid;
    if d.mobile == "" {
      errors' := errors'.(mobile := "Mobile is required");
      valid' := false;
    } else if |d.mobile| < 10 {
      errors' := errors'.(mobile := "Enter a valid mobile number");
      valid' := false;
    }
  }

  method CheckPassword(d: Form, errors: Form, valid: bool) returns (errors': Form, valid': bool)
    requires |errors.password| == 0
    ensures errors' == errors.(password := PasswordError(d.password))
    ensures valid' <==> valid && PasswordError(d.password) == ""
  {
    errors', valid' := errors, valid;
    if d.password == "" {
      errors' := errors'.(password := "Password is required");
      valid' := false;
    } else if |d.password| < 6 {
      errors' := errors'.(password := "Password must be at least 6 characters");
      valid' := false;
    }
  }

  method CheckConfirm(d: Form, errors: Form, valid: bool) returns (errors': Form, valid': bool)
    requires |errors.confirmPassword| == 0
    ensures errors' == errors.(confirmPassword := ConfirmError(d.password, d.confirmPassword))
    ensures valid' <==> valid && ConfirmError(d.password, d.confirmPassword) == ""
  {
    errors', valid' := errors, valid;
    if d.confirmPassword == "" {
      errors' := errors'.(confirmPassword := "Please confirm your password");
      valid' := false;
    } else if d.password != d.confirmPassword {
      errors' := errors'.(confirmPassword := "Passwords do not match");
      valid' := false;
    }
  }

  /** validate's body: starting from an empty error record and a true verdict, each rule
      in turn fills its field and may clear the verdict. The verdict is true exactly
      when no field has an error, and exactly when the form meets the rules. */
  method ValidateFields(d: Form) returns (errors: Form, isValid: bool)
    ensures errors == ErrorsFor(d)
    ensures isValid <==> errors == Blank
    ensures isValid <==> MeetsRules(d)
  {
    errors, isValid := CheckName(d, Blank, true);
    errors, isValid := CheckEmail(d, errors, isValid);
    errors, isValid := CheckMobile(d, errors, isValid);
    errors, isValid := CheckPassword(d, errors, isValid);
    errors, isValid := CheckConfirm(d, errors, isValid);
  }

  /** How a submission ends inside the form. */
  datatype SubmitOutcome =
    | InvalidForm
    | TermsNotAccepted
    | AuthUnavailable
    | SignupCalled(email: string, mobile: string, password: string, name: string)

  /** The sign-up page's state. */
  class SignupForm {
    var formData: Form
    var formErrors: Form
    var agreedToTerms: bool

    constructor ()
      ensures formData == Blank && formErrors == Blank && !agreedToTerms
    {
      formData := Blank;
      formErrors := Blank;
      agreedToTerms := false;
    }

    /** Sets exactly the named input and clears exactly that input's error. */
    method HandleInputChange(f: FormField, value: string)
      modifies this`formData, this`formErrors
      ensures formData == old(formData).With(f, value)
      ensures formErrors == old(formErrors).With(f, "")
      ensures agreedToTerms == old(agreedToTerms)
    {
      formData := formData.With(f, value);
      formErrors := formErrors.With(f, "");
    }

    method SetAgreedToTerms(checked: bool)
      modifies this`agreedToTerms
      ensures agreedToTerms == checked
    {
      agreedToTerms := checked;
    }

    method Validate() returns (isValid: bool)
      modifies this`formErrors
      ensures formErrors == ErrorsFor(formData)
      ensures isValid <==> MeetsRules(formData)
    {
      var errors;
      errors, isValid := ValidateFields(formData);
      formErrors := errors;
    }

    /** Validation first, then the terms box, then the availability of the sign-up
        call; the call is issued only when all three pass. */
    method HandleSubmit(authAvailable: bool) returns (outcome: SubmitOutcome)
      modifies this`formErrors
      ensures formErrors == ErrorsFor(formData)
      ensures outcome.SignupCalled? <==> MeetsRules(formData) && agreedToTerms && authAvailable
      ensures !MeetsRules(formData) ==> outcome == InvalidForm
      ensures MeetsRules(formData) && !agreedToTerms ==> outcome == TermsNotAccepted
      ensures MeetsRules(formData) && agreedToTerms && !authAvailable ==> outcome == AuthUnavailable
      ensures outcome.SignupCalled? ==>
        outcome == SignupCalled(formData.email, formData.mobile, formData.password, formData.name)
    {
      var ok := Validate();
      if !ok {
        return InvalidForm;
      }
      if !agreedToTerms {
        return TermsNotAccepted;
      }
      if !authAvailable {
        return AuthUnavailable;
      }
      outcome := SignupCalled(formData.email, formData.mobile, formData.password, formData.name);
    }
  }
}
