/**
 * `POST api/users`: the three registration checks and the reply that
 * follows from them. Whether a string is an e-mail address is left to the
 * `isEmail` predicate the caller supplies.
 */
module UsersRoute {
  import opened Http

  const NameMsg := "Name is required"
  const EmailMsg := "Please, include a valid email"
  const PasswordMsg := "Password must contains at least 6 symbols"
  const MinPasswordLength := 6

  function Failed(b: bool): nat { if b then 1 else 0 }

  /** `validationResult(req).array()` after the name, email and password checks. */
  function RegistrationErrors(body: RequestBody, isEmail: string -> bool): (r: seq<FieldError>)
    ensures FieldError("name", NameMsg) in r <==> !Truthy(body, "name")
    ensures FieldError("email", EmailMsg) in r <==> !isEmail(Checked(body, "email"))
    ensures FieldError("password", PasswordMsg) in r <==> |Checked(body, "password")| < MinPasswordLength
    ensures |r| == Failed(!Truthy(body, "name")) + Failed(!isEmail(Checked(body, "email")))
                   + Failed(|Checked(body, "password")| < MinPasswordLength)
    ensures forall i :: 0 <= i < |r| ==> r[i].param in {"name", "email", "password"}
  {
    RequiredErrors(body, [Required("name", NameMsg)])
    + (if isEmail(Checked(body, "email")) then [] else [FieldError("email", EmailMsg)])
    + (if |Checked(body, "password")| >= MinPasswordLength then [] else [FieldError("password", PasswordMsg)])
  }

  /** The handler: 400 with the errors when any check failed, otherwise the fixed text. */
  function Register(body: RequestBody, isEmail: string -> bool): (reply: Reply)
    ensures reply.status == 400 || reply.status == 200
    ensures reply.status == 400 <==>
      !Truthy(body, "name") || !isEmail(Checked(body, "email")) || |Checked(body, "password")| < MinPasswordLength
    ensures reply.status == 400 ==> reply.content == Errors(RegistrationErrors(body, isEmail))
    ensures reply.status == 200 ==> reply.content == Text("Users route")
  {
    var errors := RegistrationErrors(body, isEmail);
    if errors != [] then Reply(400, Errors(errors)) else Reply(200, Text("Users route"))
  }
}
