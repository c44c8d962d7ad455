/** The sign-up page (src/car/Sign-up.jsx): the anchored email pattern, the
    ordered validation of the six fields, and the registration request with
    its payload and outcomes. */
module Signup {
  import opened Js
  import opened Login

  /** A run of `[^\s@]+`. */
  predicate Segment(x: string) {
    |x| > 0 && forall k :: 0 <= k < |x| ==> !IsSpace(x[k]) && x[k] != '@'
  }

  /** The anchored pattern /^[^\s@]+@[^\s@]+\.[^\s@]+$/ read literally: the
      text is three segments joined by an '@' and a '.'. */
  ghost predicate Matches(s: string) {
    exists a, b, c :: Segment(a) && Segment(b) && Segment(c) && s == a + "@" + b + "." + c
  }

  /** isValidEmail, by positions: no whitespace, exactly one '@', not
      first, and after it a '.' that is neither right after the '@' nor
      last. */
  predicate IsValidEmail(s: string) {
    && (forall k :: 0 <= k < |s| ==> !IsSpace(s[k]))
    && exists at :: 0 < at < |s| && s[at] == '@' && OnlyAt(s, at) && HasInnerDot(s, at)
  }

  predicate OnlyAt(s: string, at: int) {
    forall k :: 0 <= k < |s| && k != at ==> s[k] != '@'
  }

  predicate HasInnerDot(s: string, at: int)
    requires 0 <= at
  {
    exists dot :: at + 1 < dot < |s| - 1 && s[dot] == '.'
  }

  lemma {:induction false} SplitEmail(a: string, b: string, c: string, s: string)
    requires s == a + "@" + b + "." + c
    ensures |s| == |a| + |b| + |c| + 2
    ensures s[|a|] == '@' && s[|a| + 1 + |b|] == '.'
    ensures forall k :: 0 <= k < |a| ==> s[k] == a[k]
    ensures forall k :: 0 <= k < |b| ==> s[|a| + 1 + k] == b[k]
    ensures forall k :: 0 <= k < |c| ==> s[|a| + |b| + 2 + k] == c[k]
  {
  }

  /** A text the positional test accepts is three segments joined by '@' and '.'. */
  lemma {:induction false} ValidEmailMatches(s: string)
    requires IsValidEmail(s)
    ensures Matches(s)
  {
    var at :| 0 < at < |s| && s[at] == '@' && OnlyAt(s, at) && HasInnerDot(s, at);
    var dot :| at + 1 < dot < |s| - 1 && s[dot] == '.';
    var a, b, c := s[..at], s[at + 1..dot], s[dot + 1..];
    assert s == a + "@" + b + "." + c;
    assert forall k :: 0 <= k < |b| ==> b[k] == s[at + 1 + k];
    assert forall k :: 0 <= k < |c| ==> c[k] == s[dot + 1 + k];
    assert Segment(a) && Segment(b) && Segment(c);
  }

  /** Three segments joined by '@' and '.' pass the positional test. */
  lemma {:induction false} SegmentsAreValidEmail(a: string, b: string, c: string)
    requires Segment(a) && Segment(b) && Segment(c)
    ensures IsValidEmail(a + "@" + b + "." + c)
  {
    var s := a + "@" + b + "." + c;
    SplitEmail(a, b, c, s);
    var at, dot := |a|, |a| + 1 + |b|;
    forall k | 0 <= k < |s| ensures !IsSpace(s[k]) && (k != at ==> s[k] != '@') {
      if k < at {
        assert s[k] == a[k];
      } else if at < k < dot {
        assert s[k] == b[k - at - 1];
      } else if dot < k {
        assert s[k] == c[k - dot - 1];
      }
    }
    assert HasInnerDot(s, at);
  }

  /** The positional reading agrees with the pattern, both ways. */
  lemma {:induction false} IsValidEmailIff(s: string)
    ensures IsValidEmail(s) <==> Matches(s)
  {
    if IsValidEmail(s) {
      ValidEmailMatches(s);
    }
    if Matches(s) {
      var a, b, c :| Segment(a) && Segment(b) && Segment(c) && s == a + "@" + b + "." + c;
      SegmentsAreValidEmail(a, b, c);
    }
  }

  /** An address the sign-up page accepts is also one the login page
      accepts. */
  lemma {:induction false} ValidEmailIsLoose(s: string)
    requires IsValidEmail(s)
    ensures LooseEmail(s)
  {
    var at :| 0 < at < |s| && s[at] == '@' && OnlyAt(s, at) && HasInnerDot(s, at);
    var dot :| at + 1 < dot < |s| - 1 && s[dot] == '.';
    assert NoSpaceBetween(s, at, dot);
    assert 1 <= at && at + 1 < dot && dot + 1 < |s| && s[at] == '@' && s[dot] == '.' &&
      !IsSpace(s[at - 1]) && !IsSpace(s[dot + 1]) && NoSpaceBetween(s, at, dot);
  }

  const SignupFields: seq<string> := ["firstName", "lastName", "email", "phone", "password", "repeatPassword"]

  /** The validation of handleSignup, in its order: any empty field, then
      the email pattern, then the password repetition. */
  function SignupError(form: map<string, string>): (r: Option<string>)
    ensures r == Some("All fields are required.") <==> exists k :: k in SignupFields && Get(form, k) == ""
    ensures r == Some("Please enter a valid email address.") <==>
      (forall k :: k in SignupFields ==> Get(form, k) != "") && !IsValidEmail(Get(form, "email"))
    ensures r == Some("Passwords do not match.") <==>
      && (forall k :: k in SignupFields ==> Get(form, k) != "")
      && IsValidEmail(Get(form, "email"))
      && Get(form, "password") != Get(form, "repeatPassword")
    ensures r.None? <==>
      && (forall k :: k in SignupFields ==> Get(form, k) != "")
      && IsValidEmail(Get(form, "email"))
      && Get(form, "password") == Get(form, "repeatPassword")
    ensures r.None? ==> LooseEmail(Get(form, "email"))
  {
    if Get(form, "firstName") == "" || Get(form, "lastName") == "" || Get(form, "email") == "" ||
       Get(form, "phone") == "" || Get(form, "password") == "" || Get(form, "repeatPassword") == ""
    then Some("All fields are required.")
    else if !IsValidEmail(Get(form, "email")) then Some("Please enter a valid email address.")
    else if Get(form, "password") != Get(form, "repeatPassword") then Some("Passwords do not match.")
    else
      ValidEmailIsLoose(Get(form, "email"));
      None
  }

  /** The registration body. */
  datatype Payload = Payload(name: string, email: string, phone: string, password: string)

  /** The outcome of POST /api/user/register: the request or the body's
      JSON parse threw, or the server answered with a status and a body
      whose `message` is given ("" when absent). */
  datatype SignupReply = RequestFailed(message: string) | Replied(ok: bool, message: string)

  /** The state of the sign-up page. */
  class SignupPage {
    var formData: map<string, string>
    var loading: bool
    var error: string
    var navigatedTo: Option<string>

    constructor ()
      ensures forall k :: k in formData <==> k in SignupFields
      ensures forall k :: k in formData ==> formData[k] == ""
      ensures !loading && error == "" && navigatedTo.None?
    {
      formData := map k | k in SignupFields :: "";
      loading, error, navigatedTo := false, "", None;
    }

    method HandleChange(name: string, value: string)
      modifies this`formData
      ensures formData == old(formData)[name := value]
    {
      formData := formData[name := value];
    }

    /** handleSignup: a validation failure becomes the error and nothing is
        sent. Otherwise the payload, with the two names joined by a space
        and without the repeated password, is posted; success navigates to
        "/", any failure becomes the error. */
    method HandleSignup(reply: SignupReply) returns (posted: Option<Payload>)
      modifies this`loading, this`error, this`navigatedTo
      ensures SignupError(formData).Some? ==>
        posted.None? && error == SignupError(formData).value &&
        loading == old(loading) && navigatedTo == old(navigatedTo)
      ensures SignupError(formData).None? ==>
        && posted == Some(Payload(Get(formData, "firstName") + " " + Get(formData, "lastName"),
                                  Get(formData, "email"), Get(formData, "phone"), Get(formData, "password")))
        && !loading
      ensures SignupError(formData).None? && reply.RequestFailed? ==>
        error == reply.message && navigatedTo == old(navigatedTo)
      ensures SignupError(formData).None? && reply.Replied? && !reply.ok ==>
        error == (if reply.message != "" then reply.message else "Registration failed. Please try again.") &&
        navigatedTo == old(navigatedTo)
      ensures SignupError(formData).None? && reply.Replied? && reply.ok ==>
        error == "" && navigatedTo == Some("/")
    {
      error := "";
      var problem := SignupError(formData);
      if problem.Some? {
        error := problem.value;
        return None;
      }
      loading := true;
      posted := Some(Payload(Get(formData, "firstName") + " " + Get(formData, "lastName"),
                             Get(formData, "email"), Get(formData, "phone"), Get(formData, "password")));
      match reply {
        case RequestFailed(message) =>
          error := message;
        case Replied(ok, message) =>
          if !ok {
            error := if message != "" then message else "Registration failed. Please try again.";
          } else {
            navigatedTo := Some("/");
          }
      }
      loading := false;
    }
  }
}
