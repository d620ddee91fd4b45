/** The newsletter signup form: its validator, with the e-mail pattern
    `^[^\s@]+@[^\s@]+\.[^\s@]+$` written out, and the submit handler's
    state changes. */
module Newsletter {
  import opened Text
  import opened Values
  import opened Http

  const RequiredMsg: string := "Vul alle verplichte velden in."
  const InvalidEmailMsg: string := "Vul een geldig e-mailadres in."
  const SuccessMsg: string := "Je bent succesvol aangemeld voor de nieuwsbrief!"
  const FailurePrefix: string := "Aanmelden mislukt: "

  /** A character of the class `[^\s@]`. */
  predicate Plain(c: char) {
    c != '@' && !IsWhiteSpace(c)
  }

  /** `s[lo..hi]` is a run of `[^\s@]` characters. */
  predicate PlainBetween(s: string, lo: int, hi: int) {
    forall k | lo <= k < hi && 0 <= k < |s| :: Plain(s[k])
  }

  /** The pattern matches with its `@` at `i` and its `\.` at `j`: each of
      the three `[^\s@]+` runs is non-empty and fills the gap it spans. */
  predicate MatchesAt(s: string, i: int, j: int) {
    && 0 < i && i + 1 < j && j + 1 < |s|
    && s[i] == '@' && s[j] == '.'
    && PlainBetween(s, 0, i) && PlainBetween(s, i + 1, j) && PlainBetween(s, j + 1, |s|)
  }

  /** `emailPattern.test(s)` */
  predicate EmailPattern(s: string): (r: bool)
    ensures r ==> |s| >= 5
  {
    exists i, j | 0 <= i < |s| && 0 <= j < |s| :: MatchesAt(s, i, j)
  }

  predicate NoWhiteSpace(s: string) {
    forall k | 0 <= k < |s| :: !IsWhiteSpace(s[k])
  }

  /** The `@` at `a` is the only one. */
  predicate OnlyAt(s: string, a: int) {
    forall k | 0 <= k < |s| :: s[k] == '@' <==> k == a
  }

  /** The domain after the `@` at `a` has a `.` that is neither its first
      nor its last character. */
  predicate InnerDot(s: string, a: nat) {
    exists d | a + 1 < d < |s| - 1 :: s[d] == '.'
  }

  /** The shape of an address the pattern accepts, stated without the
      pattern: no white space, exactly one `@`, not in first position, and
      a dot inside the domain. */
  predicate ShapeOk(s: string) {
    NoWhiteSpace(s) && exists a | 0 < a < |s| :: OnlyAt(s, a) && InnerDot(s, a)
  }

  lemma MatchGivesShape(s: string, i: int, j: int)
    requires MatchesAt(s, i, j)
    ensures NoWhiteSpace(s) && OnlyAt(s, i) && InnerDot(s, i)
  {
    forall k | 0 <= k < |s| ensures !IsWhiteSpace(s[k]) && (s[k] == '@' <==> k == i) {
      if k < i {
        assert Plain(s[k]);
      } else if i < k < j {
        assert Plain(s[k]);
      } else if j < k {
        assert Plain(s[k]);
      }
    }
  }

  lemma ShapeGivesMatch(s: string, a: int, d: int)
    requires NoWhiteSpace(s) && 0 < a < |s| && OnlyAt(s, a)
    requires a + 1 < d < |s| - 1 && s[d] == '.'
    ensures MatchesAt(s, a, d)
  {
    forall k | 0 <= k < |s| && k != a ensures Plain(s[k]) {
      assert s[k] != '@';
    }
  }

  /** The pattern accepts exactly the addresses of that shape. */
  lemma EmailPatternShape(s: string)
    ensures EmailPattern(s) <==> ShapeOk(s)
  {
    if EmailPattern(s) {
      var i, j :| 0 <= i < |s| && 0 <= j < |s| && MatchesAt(s, i, j);
      MatchGivesShape(s, i, j);
    }
    if ShapeOk(s) {
      var a :| 0 < a < |s| && OnlyAt(s, a) && InnerDot(s, a);
      var d :| a + 1 < d < |s| - 1 && s[d] == '.';
      ShapeGivesMatch(s, a, d);
    }
  }

  /** `validate()`: the required-fields check first, then the pattern on the
      trimmed address; `""` means valid. */
  function Validate(name: string, email: string): (r: string)
    ensures r == "" || r == RequiredMsg || r == InvalidEmailMsg
  {
    if Trim(name) == [] || Trim(email) == [] then RequiredMsg
    else if !EmailPattern(Trim(email)) then InvalidEmailMsg
    else ""
  }

  /** Blank fields are reported first, whatever the address; an address
      that does not have the accepted shape is reported next; anything else
      is valid. */
  lemma ValidateSpec(name: string, email: string)
    ensures Validate(name, email) == RequiredMsg <==> IsBlank(name) || IsBlank(email)
    ensures Validate(name, email) == InvalidEmailMsg <==>
      !IsBlank(name) && !IsBlank(email) && !ShapeOk(Trim(email))
    ensures Validate(name, email) == "" <==>
      !IsBlank(name) && !IsBlank(email) && ShapeOk(Trim(email))
  {
    TrimSpec(name);
    TrimSpec(email);
    EmailPatternShape(Trim(email));
    assert RequiredMsg[4] != InvalidEmailMsg[4];
  }

  /** An address that passes validation, as it is sent, has exactly one `@`,
      a non-empty part before it, no white space, and a dot strictly inside
      the part after it. */
  lemma AcceptedEmailShape(name: string, email: string)
    requires Validate(name, email) == ""
    ensures Trim(email) != [] && ShapeOk(Trim(email))
  {
    EmailPatternShape(Trim(email));
  }

  /** A plain address is accepted. */
  lemma ValidateAcceptsPlainAddress()
    ensures Validate("Ann", "ann@example.com") == ""
  {
    TrimKeepsSolidEnds("Ann");
    TrimKeepsSolidEnds("ann@example.com");
    assert MatchesAt("ann@example.com", 3, 11);
  }

  /** An empty address is reported as missing, not as invalid. */
  lemma ValidateReportsMissingAddress()
    ensures Validate("Ann", "") == RequiredMsg
  {
  }

  /** An address with two `@` is rejected. */
  lemma ValidateRejectsTwoAts()
    ensures Validate("Ann", "a@b@c.d") == InvalidEmailMsg
  {
    TrimKeepsSolidEnds("Ann");
    TrimKeepsSolidEnds("a@b@c.d");
    EmailPatternShape("a@b@c.d");
    assert "a@b@c.d"[3] == '@' && "a@b@c.d"[1] == '@';
    assert !OnlyAt("a@b@c.d", 1) && !OnlyAt("a@b@c.d", 3);
  }

  /** The body of `POST /newsletter`. */
  datatype Signup = Signup(name: string, email: string)

  /** What the POST settles to: a rejection's error, an error naming the
      failing status, or none; the response body is never read. */
  function SignupFailure<B>(o: Outcome<B>): (r: Option<Error>)
    ensures o.Rejected? ==> r == Some(o.reason)
    ensures r.None? ==> o.Received? && o.response.Ok()
  {
    match o
    case Rejected(e) => Some(e)
    case Received(res) => if !res.Ok() then Some(HttpError("Newsletter", res.status)) else None
  }

  /** The signup succeeds exactly on a received 2xx response, whatever its
      body. */
  lemma SignupFailureSpec<B>(o: Outcome<B>, other: Body<B>)
    ensures SignupFailure(o).None? <==> o.Received? && o.response.Ok()
    ensures o.Received? ==> SignupFailure(o) == SignupFailure(Received(o.response.(body := other)))
  {
  }

  /** `NewsletterPage`'s state. */
  class Form {
    var name: string
    var email: string
    var submitting: bool
    var errorMsg: string
    var successMsg: string

    constructor ()
      ensures name == "" && email == "" && !submitting && errorMsg == "" && successMsg == ""
    {
      name, email, submitting, errorMsg, successMsg := "", "", false, "", "";
    }

    method SetName(v: string)
      modifies this`name
      ensures name == v
    {
      name := v;
    }

    method SetEmail(v: string)
      modifies this`email
      ensures email == v
    {
      email := v;
    }

    /** `handleSubmit` up to its `await`: both messages are cleared; an
        invalid form shows the validator's message and sends nothing;
        a valid one is submitting and sends the trimmed values. */
    method BeginSubmit() returns (request: Option<Signup>)
      modifies this`errorMsg, this`successMsg, this`submitting
      ensures successMsg == ""
      ensures Validate(name, email) != "" ==>
        request == None && errorMsg == Validate(name, email) && submitting == old(submitting)
      ensures Validate(name, email) == "" ==>
        request == Some(Signup(Trim(name), Trim(email))) && errorMsg == "" && submitting
    {
      errorMsg := "";
      successMsg := "";
      var v := Validate(name, email);
      if v != "" {
        errorMsg := v;
        request := None;
        return;
      }
      submitting := true;
      request := Some(Signup(Trim(name), Trim(email)));
    }

    /** `handleSubmit` from its `await` on: success clears the inputs and
        shows the thanks; failure keeps them and shows the error after the
        prefix; `submitting` ends either way. */
    method SettleSubmit<B>(response: Outcome<B>)
      modifies this`name, this`email, this`submitting, this`errorMsg, this`successMsg
      ensures !submitting
      ensures SignupFailure(response).None? ==>
        && name == "" && email == "" && successMsg == SuccessMsg && errorMsg == old(errorMsg)
      ensures SignupFailure(response).Some? ==>
        && name == old(name) && email == old(email) && successMsg == old(successMsg)
        && errorMsg == FailurePrefix + SignupFailure(response).value.message
    {
      var failure := SignupFailure(response);
      if failure.None? {
        successMsg := SuccessMsg;
        name := "";
        email := "";
      } else {
        errorMsg := FailurePrefix + failure.value.message;
      }
      submitting := false;
    }
  }
}
