/** The sign-up form: email, password and its confirmation, a `loading` flag
    and an `error` message. A submit checks that the two passwords match,
    then waits for the backend; the handler is modelled in two halves, the
    part before the `await` (`Submit`) and the continuation once the
    response is in (`Complete`). */
module SignUp {
  import opened Options

  /** The body of `POST /auth/sign-up`. */
  datatype SignUpRequest = SignUpRequest(email: string, password: string)

  /** What the `await`s end with: a response whose body was read (`message`
      is its `message` field, "" when absent), or an exception from the request
      or from reading the body, with its message. */
  datatype SignUpResponse =
    | Responded(ok: bool, message: string)
    | Threw(message: string)

  const MismatchMessage: string := "Passwords do not match"
  const DefaultFailure: string := "Sign-up failed"
  /** Where a successful sign-up sends the browser. */
  const SignInRoute: string := "/signin"

  /** The error the form shows once a request has finished: none on an OK
      response, otherwise the exception's message, where a non-OK response
      throws its `message` or, when that is empty, 'Sign-up failed'. */
  function ErrorAfter(response: SignUpResponse): (e: Option<string>)
    ensures e == None <==> response.Responded? && response.ok
    ensures response.Responded? && !response.ok ==> e.Some? && e.value != ""
  {
    match response
    case Responded(ok, message) =>
      if ok then None else Some(if message != "" then message else DefaultFailure)
    case Threw(message) => Some(message)
  }

  /** The route a finished request navigates to: `/signin` on an OK response only. */
  function NavigationAfter(response: SignUpResponse): Option<string>
  {
    if response.Responded? && response.ok then Some(SignInRoute) else None
  }

  /** A shown error and a navigation never come together. */
  lemma ErrorOrNavigation(response: SignUpResponse)
    ensures ErrorAfter(response).Some? <==> NavigationAfter(response).None?
  {
  }

  /** The server's message is shown as it is; only an empty one is replaced. */
  lemma ServerMessageShown(message: string)
    ensures ErrorAfter(Responded(false, message)) == Some(if message == "" then DefaultFailure else message)
  {
  }

  /** The form's state slots; `navigatedTo` records the last `navigate` call. */
  class SignUpForm {
    var email: string
    var password: string
    var confirmPassword: string
    var loading: bool
    var error: Option<string>
    var navigatedTo: Option<string>

    constructor ()
      ensures email == "" && password == "" && confirmPassword == ""
      ensures !loading && error == None && navigatedTo == None
    {
      email, password, confirmPassword := "", "", "";
      loading := false;
      error := None;
      navigatedTo := None;
    }

    method SetEmail(value: string)
      modifies this`email
      ensures email == value
    {
      email := value;
    }

    method SetPassword(value: string)
      modifies this`password
      ensures password == value
    {
      password := value;
    }

    method SetConfirmPassword(value: string)
      modifies this`confirmPassword
      ensures confirmPassword == value
    {
      confirmPassword := value;
    }

    /** `handleSubmit` up to its `await`. The submit button is disabled while
        `loading`. The error is cleared first; mismatched passwords then set
        the mismatch message and stop before any request, leaving `loading`
        false; otherwise `loading` becomes true and the request is sent. */
    method Submit() returns (request: Option<SignUpRequest>)
      requires !loading
      modifies this`error, this`loading
      ensures password != confirmPassword ==> request == None && error == Some(MismatchMessage) && !loading
      ensures password == confirmPassword ==>
        request == Some(SignUpRequest(email, password)) && error == None && loading
    {
      error := None;
      if password != confirmPassword {
        error := Some(MismatchMessage);
        return None;
      }
      loading := true;
      request := Some(SignUpRequest(email, password));
    }

    /** The rest of `handleSubmit`, once `response` is in: the error follows
        `ErrorAfter`, an OK response navigates to `/signin`, and the `finally`
        clears `loading` whatever happened. */
    method Complete(response: SignUpResponse)
      requires loading
      modifies this`error, this`loading, this`navigatedTo
      ensures !loading
      ensures error == (if ErrorAfter(response).Some? then ErrorAfter(response) else old(error))
      ensures navigatedTo == (if NavigationAfter(response).Some? then NavigationAfter(response) else old(navigatedTo))
    {
      match response {
        case Responded(ok, message) =>
          if !ok {
            error := Some(if message != "" then message else DefaultFailure);
          } else {
            navigatedTo := Some(SignInRoute);
          }
        case Threw(message) =>
          error := Some(message);
      }
      loading := false;
    }
  }

  /** A whole submit with matching passwords: after `Submit` and `Complete`
      the form is no longer loading, and it shows the error of the response,
      or none and has navigated to `/signin`. */
  method SubmitAndComplete(form: SignUpForm, response: SignUpResponse) returns (request: Option<SignUpRequest>)
    requires !form.loading && form.password == form.confirmPassword
    modifies form`error, form`loading, form`navigatedTo
    ensures request == Some(SignUpRequest(old(form.email), old(form.password)))
    ensures !form.loading && form.error == ErrorAfter(response)
    ensures form.navigatedTo == if NavigationAfter(response).Some? then Some(SignInRoute) else old(form.navigatedTo)
  {
    request := form.Submit();
    form.Complete(response);
  }
}
