/**
 * The sign-up form: on submit, the password confirmation is checked first and
 * the university email domain second; only a form that passes both is posted,
 * and the loading flag is cleared on every way out.
 */
module Signup {
  import opened Wrappers
  import opened Text

  /** The only email domain accepted for sign-up. */
  const EmailSuffix := "@alexu.edu.eg"

  /** Where a successful sign-up sends the browser. */
  const LoginPage := "/login"

  datatype SignupError = PasswordMismatch | EmailNotAllowed

  /** The alert each rejection shows. */
  function AlertText(e: SignupError): string
  {
    match e
    case PasswordMismatch => "Passwords do not match!"
    case EmailNotAllowed => "Please use your alexu.edu.eg email"
  }

  /** The checks of the submit handler, in the order it makes them: the first one that fails is reported. */
  function Validate(password: string, confirmPassword: string, email: string): (r: Option<SignupError>)
    ensures r.None? <==> password == confirmPassword && EndsWith(email, EmailSuffix)
    ensures password != confirmPassword ==> r == Some(PasswordMismatch)
    ensures password == confirmPassword && !EndsWith(email, EmailSuffix) ==> r == Some(EmailNotAllowed)
  {
    if password != confirmPassword then Some(PasswordMismatch)
    else if !EndsWith(email, EmailSuffix) then Some(EmailNotAllowed)
    else None
  }

  /** What is posted to the sign-up endpoint. */
  datatype SignupRequest = SignupRequest(username: string, password: string, email: string)

  /** The request as the JSON object `JSON.stringify` writes: one value per key. */
  function Body(req: SignupRequest): (body: map<string, string>)
    ensures body.Keys == {"username", "password", "email"}
    ensures "confirmPassword" !in body
    ensures body["username"] == req.username
    ensures body["password"] == req.password
    ensures body["email"] == req.email
  {
    map["username" := req.username, "password" := req.password, "email" := req.email]
  }

  /** How the sign-up request ended: the server's answer, or an exception from fetch or from parsing the reply. */
  datatype Response = Threw | Answered(ok: bool)

  datatype Outcome = Rejected(error: SignupError) | SignedUp | Failed

  datatype FormField = Username | Email | Password | ConfirmPassword

  /** The form's React state, the alerts shown, the requests posted and where the browser was sent. */
  class SignupForm {
    var username: string
    var email: string
    var password: string
    var confirmPassword: string
    var isLoading: bool
    var alerts: seq<string>
    var requests: seq<SignupRequest>
    var location: Option<string>

    /** Every request that left the form carries an email of the university domain. */
    ghost predicate Valid()
      reads this
    {
      forall r :: r in requests ==> EndsWith(r.email, EmailSuffix)
    }

    constructor ()
      ensures Valid()
      ensures username == "" && email == "" && password == "" && confirmPassword == ""
      ensures !isLoading && alerts == [] && requests == [] && location == None
    {
      username, email, password, confirmPassword := "", "", "", "";
      isLoading := false;
      alerts, requests, location := [], [], None;
    }

    /** An input's `onChange`. */
    method Edit(field: FormField, value: string)
      requires Valid()
      modifies this`username, this`email, this`password, this`confirmPassword
      ensures Valid()
      ensures username == (if field == Username then value else old(username))
      ensures email == (if field == Email then value else old(email))
      ensures password == (if field == Password then value else old(password))
      ensures confirmPassword == (if field == ConfirmPassword then value else old(confirmPassword))
    {
      match field
      case Username => username := value;
      case Email => email := value;
      case Password => password := value;
      case ConfirmPassword => confirmPassword := value;
    }

    /**
     * `handleSubmit`: a rejected form shows its alert and posts nothing; a valid one
     * posts username, password and email, and goes to the login page when the
     * server answers ok. `isLoading` is false afterwards on every path. `posted`
     * is the JSON body sent, if any.
     */
    method HandleSubmit(response: Response) returns (outcome: Outcome, posted: Option<map<string, string>>)
      requires Valid()
      modifies this`isLoading, this`alerts, this`requests, this`location
      ensures Valid()
      ensures !isLoading
      ensures Validate(password, confirmPassword, email).Some? ==>
        && outcome == Rejected(Validate(password, confirmPassword, email).value)
        && alerts == old(alerts) + [AlertText(outcome.error)]
        && requests == old(requests)
        && posted == None
        && location == old(location)
      ensures Validate(password, confirmPassword, email).None? ==>
        && requests == old(requests) + [SignupRequest(username, password, email)]
        && posted == Some(Body(SignupRequest(username, password, email)))
        && alerts == old(alerts)
        && outcome == (if response == Answered(true) then SignedUp else Failed)
        && location == (if outcome == SignedUp then Some(LoginPage) else old(location))
    {
      isLoading := true;

      if password != confirmPassword {
        alerts := alerts + [AlertText(PasswordMismatch)];
        isLoading := false;
        return Rejected(PasswordMismatch), None;
      }

      if !EndsWith(email, EmailSuffix) {
        alerts := alerts + [AlertText(EmailNotAllowed)];
        isLoading := false;
        return Rejected(EmailNotAllowed), None;
      }

      requests := requests + [SignupRequest(username, password, email)];
      posted := Some(Body(SignupRequest(username, password, email)));
      match response {
        case Answered(true) =>
          location := Some(LoginPage);
          outcome := SignedUp;
        case Answered(false) =>
          isLoading := false;
          outcome := Failed;
        case Threw =>
          isLoading := false;
          outcome := Failed;
      }
      // the `finally` block
      isLoading := false;
    }
  }
}
