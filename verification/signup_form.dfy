/**
 * src/components/signup-form.tsx: the field rules registered for each
 * input, and `onSubmit` with its confirmation check, address default, call
 * to `registerUser` and `error` / `isLoading` updates.
 */
module SignupForm {
  import opened Wrappers
  import opened Js
  import opened FormRules
  import Http
  import AuthApi

  /**
   * `SignupFormData` as the inputs deliver it. The address input has no
   * rule and its type marks it optional; the confirmation is required.
   */
  datatype SignupData = SignupData(name: string, phone: string, email: string, address: Option<string>, password: string, confirmPassword: string)

  /** The message shown under each input, if any. */
  datatype SignupErrors = SignupErrors(name: Option<string>, phone: Option<string>, email: Option<string>, password: Option<string>, confirmPassword: Option<string>)

  const NoErrors := SignupErrors(None, None, None, None, None)

  /** `required` first, then `pattern`. */
  function PhoneError(s: string): (r: Option<string>)
    ensures r.None? <==> IsPhone(s)
    ensures s == "" ==> r == Some("Phone is required")
    ensures s != "" && !IsPhone(s) ==> r == Some("Invalid phone")
  {
    if s == "" then Some("Phone is required")
    else if !IsPhone(s) then Some("Invalid phone")
    else None
  }

  function EmailError(s: string): (r: Option<string>)
    ensures r.None? <==> IsEmail(s)
    ensures s == "" ==> r == Some("Email is required")
    ensures s != "" && !IsEmail(s) ==> r == Some("Invalid email")
  {
    if s == "" then Some("Email is required")
    else if !IsEmail(s) then Some("Invalid email")
    else None
  }

  /** `required`, then `minLength: 6`. */
  function PasswordError(s: string): (r: Option<string>)
    ensures r.None? <==> MinLength(s, 6)
    ensures s == "" ==> r == Some("Password is required")
    ensures s != "" && !MinLength(s, 6) ==> r == Some("Password must be at least 6 characters")
  {
    if s == "" then Some("Password is required")
    else if !MinLength(s, 6) then Some("Password must be at least 6 characters")
    else None
  }

  /** Every input's rule applied to the data. */
  function Validate(d: SignupData): (e: SignupErrors)
    ensures e == NoErrors <==>
              d.name != "" && IsPhone(d.phone) && IsEmail(d.email) && MinLength(d.password, 6) && d.confirmPassword != ""
  {
    SignupErrors(
      if d.name == "" then Some("Name is required") else None,
      PhoneError(d.phone),
      EmailError(d.email),
      PasswordError(d.password),
      if d.confirmPassword == "" then Some("Please confirm password") else None)
  }

  const MismatchMessage := "Passwords do not match"
  const LoginPath := "/login"

  /** The payload `onSubmit` sends: the fields as typed, an omitted address as "". */
  function Payload(d: SignupData): (p: AuthApi.RegisterPayload)
    ensures p.address == Some(OrElse(d.address, ""))
    ensures p.name == d.name && p.phone == d.phone && p.email == d.email && p.password == d.password
  {
    AuthApi.RegisterPayload(d.name, d.phone, d.email, Some(OrElse(d.address, "")), d.password)
  }

  /** Data that passes the form's rules always reaches the server: `registerUser`'s own required-field check never fires from this form. */
  lemma ValidDataIsSent<B>(d: SignupData, reply: Result<B, Http.Thrown>)
    requires Validate(d) == NoErrors
    ensures AuthApi.RegisterCall(Payload(d), reply).requested
  {
    assert |d.phone| >= 10;
  }

  class SignupFormState {
    var fieldErrors: SignupErrors
    var error: Option<string>
    var isLoading: bool
    var navigatedTo: Option<string>

    constructor ()
      ensures fieldErrors == NoErrors && error == None && !isLoading && navigatedTo == None
    {
      fieldErrors, error, isLoading, navigatedTo := NoErrors, None, false, None;
    }

    /**
     * `handleSubmit(onSubmit)` with the reply the server would give. Data
     * that breaks a rule only shows its field messages. Otherwise a
     * differing confirmation sets "Passwords do not match" and sends
     * nothing; else the registration either succeeds, navigating to the
     * login page without logging in, or its message becomes the error.
     * Loading is over whenever `onSubmit` ran.
     */
    method Submit<B>(d: SignupData, reply: Result<B, Http.Thrown>) returns (requested: bool)
      modifies this
      ensures fieldErrors == Validate(d)
      ensures requested ==> fieldErrors == NoErrors && d.password == d.confirmPassword
      ensures requested <==> Validate(d) == NoErrors && d.password == d.confirmPassword && AuthApi.RegisterCall(Payload(d), reply).requested
      ensures fieldErrors != NoErrors ==> error == old(error) && isLoading == old(isLoading) && navigatedTo == old(navigatedTo)
      ensures fieldErrors == NoErrors ==> !isLoading
      ensures fieldErrors == NoErrors && d.password != d.confirmPassword ==>
                error == Some(MismatchMessage) && navigatedTo == old(navigatedTo)
      ensures fieldErrors == NoErrors && d.password == d.confirmPassword ==>
                var call := AuthApi.RegisterCall(Payload(d), reply);
                (call.result.Success? ==> error == None && navigatedTo == Some(LoginPath)) &&
                (call.result.Failure? ==> error == Some(call.result.error) && navigatedTo == old(navigatedTo))
    {
      fieldErrors := Validate(d);
      requested := false;
      if fieldErrors != NoErrors {
        return;
      }
      error := None;
      isLoading := true;
      if d.password != d.confirmPassword {
        error := Some(MismatchMessage);
      } else {
        var call := AuthApi.RegisterCall(Payload(d), reply);
        requested := call.requested;
        match call.result {
          case Success(_) => navigatedTo := Some(LoginPath);
          case Failure(message) => error := Some(message);
        }
      }
      isLoading := false;
    }
  }
}
