/** The login page (src/car/Login.jsx): per-field validation on blur and on
    submit, the error clearing on change, the submit handler's outcomes, and
    the submit button's enabling condition. */
module Login {
  import opened Js
  import opened Session

  /** `/\S+@\S+\.\S+/.test(s)`: the pattern is not anchored, so it matches
      when some '@' has a non-space character just before it, and some
      later '.' is reached from it through at least one non-space character
      and is followed by a non-space character. */
  predicate LooseEmail(s: string) {
    exists at, dot :: 1 <= at && at + 1 < dot && dot + 1 < |s| && s[at] == '@' && s[dot] == '.' &&
      !IsSpace(s[at - 1]) && !IsSpace(s[dot + 1]) && NoSpaceBetween(s, at, dot)
  }

  predicate NoSpaceBetween(s: string, at: int, dot: int)
    requires 0 <= at < dot <= |s|
  {
    forall k :: at < k < dot ==> !IsSpace(s[k])
  }

  /** validateField: the message for a field's value, or "" when valid. */
  function ValidateField(name: string, value: string): string {
    if name == "email" then EmailError(value)
    else if name == "password" then PasswordError(value)
    else ""
  }

  function EmailError(value: string): string {
    if value == "" then "Email is required."
    else if !LooseEmail(value) then "Email address is invalid."
    else ""
  }

  function PasswordError(value: string): string {
    if value == "" then "Password is required."
    else if |value| < 6 then "Password must be at least 6 characters."
    else ""
  }

  /** A text the pattern matches is not empty. */
  lemma {:induction false} LooseEmailNonEmpty(value: string)
    requires LooseEmail(value)
    ensures value != ""
  {
  }

  /** An email is accepted exactly when it matches the pattern, a password
      exactly when it has six characters or more; other fields always are. */
  lemma {:induction false} ValidateFieldAccepts(name: string, value: string)
    ensures name == "email" ==> (ValidateField(name, value) == "" <==> LooseEmail(value))
    ensures name == "password" ==> (ValidateField(name, value) == "" <==> |value| >= 6)
    ensures name != "email" && name != "password" ==> ValidateField(name, value) == ""
  {
    if name == "email" && LooseEmail(value) {
      LooseEmailNonEmpty(value);
    }
  }

  /** The submit handler's validation loop over `Object.keys(formData)`:
      the fields whose value fails, with their messages. */
  method CollectErrors(formData: map<string, string>) returns (validationErrors: map<string, string>)
    ensures forall k :: k in validationErrors <==> k in formData && ValidateField(k, formData[k]) != ""
    ensures forall k :: k in validationErrors ==> validationErrors[k] == ValidateField(k, formData[k])
  {
    validationErrors := map[];
    var remaining := formData.Keys;
    while remaining != {}
      invariant remaining <= formData.Keys
      invariant forall k :: k in validationErrors <==>
        k in formData && k !in remaining && ValidateField(k, formData[k]) != ""
      invariant forall k :: k in validationErrors ==> validationErrors[k] == ValidateField(k, formData[k])
      decreases |remaining|
    {
      var name :| name in remaining;
      var error := ValidateField(name, formData[name]);
      if error != "" {
        validationErrors := validationErrors[name := error];
      }
      remaining := remaining - {name};
    }
  }

  /** Some field of the form fails validation. */
  predicate Blocked(formData: map<string, string>) {
    exists k :: k in formData && ValidateField(k, formData[k]) != ""
  }

  /** The outcome of POST /api/user/login: the request or the body's JSON
      parse threw (`Failed`), or the server answered with a status and a
      body whose `message` ("" when absent) and `token` are given. */
  datatype LoginReply = Failed(message: string) | Answered(ok: bool, message: string, token: Option<string>)

  /** `isFormValid`: both fields filled and neither shows an error. */
  predicate FormValid(formData: map<string, string>, errors: map<string, string>) {
    Get(formData, "email") != "" && Get(formData, "password") != "" &&
    Get(errors, "email") == "" && Get(errors, "password") == ""
  }

  /** Once both fields have been blurred, so that each shows its own
      validation message, the button is enabled exactly when a submit
      would not be blocked. */
  lemma {:induction false} BlurredFormValidIff(formData: map<string, string>, errors: map<string, string>)
    requires forall k :: k in formData <==> k == "email" || k == "password"
    requires Get(errors, "email") == ValidateField("email", formData["email"])
    requires Get(errors, "password") == ValidateField("password", formData["password"])
    ensures FormValid(formData, errors) <==> !Blocked(formData)
  {
    var email, password := formData["email"], formData["password"];
    ValidateFieldAccepts("email", email);
    ValidateFieldAccepts("password", password);
    if LooseEmail(email) {
      LooseEmailNonEmpty(email);
    }
    if !Blocked(formData) {
      assert ValidateField("email", email) == "" && ValidateField("password", password) == "";
    }
    if FormValid(formData, errors) {
      forall k | k in formData ensures ValidateField(k, formData[k]) == "" {
        assert k == "email" || k == "password";
      }
    }
  }

  /** Typing clears a shown error without validating, so the button can be
      enabled on a form whose submit is then blocked: an email that the
      pattern rejects, once its error is cleared, enables the button. */
  lemma {:induction false} ClearedErrorEnablesBlockedSubmit(email: string, password: string)
    requires email != "" && !LooseEmail(email) && password != ""
    ensures FormValid(map["email" := email, "password" := password], map["email" := "", "password" := ""])
    ensures Blocked(map["email" := email, "password" := password])
  {
    var formData := map["email" := email, "password" := password];
    assert ValidateField("email", formData["email"]) == "Email address is invalid.";
  }

  /** The state of the login page. */
  class LoginPage {
    var formData: map<string, string>
    var errors: map<string, string>
    var loading: bool
    var apiError: Option<string>

    /** The page as first rendered, after the effect that shows an error
        passed along by the OAuth redirect. */
    constructor (redirectError: Option<string>)
      ensures formData == map["email" := "", "password" := ""] && errors == map[] && !loading
      ensures apiError == (if Present(redirectError) then redirectError else None)
    {
      formData := map["email" := "", "password" := ""];
      errors := map[];
      loading := false;
      apiError := if Present(redirectError) then redirectError else None;
    }

    /** handleChange: the field takes the value, and its error, if one is
        shown, is cleared. */
    method HandleChange(name: string, value: string)
      modifies this`formData, this`errors
      ensures formData == old(formData)[name := value]
      ensures Get(old(errors), name) != "" ==> errors == old(errors)[name := ""]
      ensures Get(old(errors), name) == "" ==> errors == old(errors)
    {
      formData := formData[name := value];
      if Get(errors, name) != "" {
        errors := errors[name := ""];
      }
    }

    /** handleBlur: the field's error becomes its validation message. */
    method HandleBlur(name: string, value: string)
      modifies this`errors
      ensures errors == old(errors)[name := ValidateField(name, value)]
    {
      errors := errors[name := ValidateField(name, value)];
    }

    /** handleLoginSubmit: with a field failing, the errors become exactly
        the failing fields and nothing is sent. Otherwise the credentials
        are posted; a token in a successful answer logs in through `auth`,
        and every other outcome becomes the page's error. */
    method HandleLoginSubmit(auth: AuthStore, fromPath: Option<string>, reply: LoginReply) returns (sent: bool)
      modifies this`errors, this`loading, this`apiError, auth
      ensures Blocked(old(formData)) ==>
        && !sent && apiError.None? && loading == old(loading)
        && (forall k :: k in errors <==> k in formData && ValidateField(k, formData[k]) != "")
        && (forall k :: k in errors ==> errors[k] == ValidateField(k, formData[k]))
        && auth.token == old(auth.token) && auth.navigatedTo == old(auth.navigatedTo)
      ensures !Blocked(old(formData)) ==> sent && !loading && errors == old(errors)
      ensures !Blocked(old(formData)) && reply.Failed? ==> apiError == Some(reply.message)
      ensures !Blocked(old(formData)) && reply.Answered? && !reply.ok ==>
        apiError == Some(if reply.message != "" then reply.message else "Login failed. Please check your credentials.")
      ensures !Blocked(old(formData)) && reply.Answered? && reply.ok && !Present(reply.token) ==>
        apiError == Some("Login response did not include a token.")
      ensures !Blocked(old(formData)) && reply.Answered? && reply.ok && Present(reply.token) ==>
        && apiError.None? && auth.token == reply.token
        && auth.navigatedTo == (if Present(fromPath) then fromPath else Some("/"))
      ensures !(!Blocked(old(formData)) && reply.Answered? && reply.ok && Present(reply.token)) ==>
        auth.token == old(auth.token) && auth.navigatedTo == old(auth.navigatedTo)
      ensures formData == old(formData)
    {
      apiError := None;
      var validationErrors := CollectErrors(formData);
      if |validationErrors| > 0 {
        errors := validationErrors;
        return false;
      }
      sent := true;
      loading := true;
      match reply {
        case Failed(message) =>
          apiError := Some(message);
        case Answered(ok, message, token) =>
          if !ok {
            apiError := Some(if message != "" then message else "Login failed. Please check your credentials.");
          } else if Present(token) {
            auth.Login(token, fromPath);
          } else {
            apiError := Some("Login response did not include a token.");
          }
      }
      loading := false;
    }

    /** isFormValid, which enables the submit button. */
    predicate IsFormValid()
      reads this
    {
      FormValid(formData, errors)
    }
  }

  /** A submit that is not blocked sends an email matching the pattern and
      a password of six characters or more. */
  lemma {:induction false} UnblockedSubmitIsValid(formData: map<string, string>)
    requires "email" in formData && "password" in formData
    requires !Blocked(formData)
    ensures LooseEmail(formData["email"]) && |formData["password"]| >= 6
  {
    ValidateFieldAccepts("email", formData["email"]);
    ValidateFieldAccepts("password", formData["password"]);
  }
}
