/** The form helpers: the user form schema and the extraction of the
    message shown for a failed validation. */
module Forms {
  import opened Zod
  import ZodSchemas

  datatype UserFormData = UserFormData(name: string, email: string)

  const MinNameLength := 2
  const NameTooShort := "Le nom doit contenir au moins 2 caractères"
  const FallbackMessage := "Erreur de validation"

  /** `userSchema`: a name of at least two characters and an address the
      library's email check accepts; neither is transformed. */
  function ParseUser(body: Json, checks: Checks): (p: Parsed<UserFormData>)
    ensures Reported(p)
    ensures p.Success? <==>
      body.JObject?
      && Get(body.fields, "name").JString? && |Get(body.fields, "name").s| >= MinNameLength
      && Get(body.fields, "email").JString? && checks.isEmail(Get(body.fields, "email").s)
    ensures p.Success? ==>
      p.data == UserFormData(Get(body.fields, "name").s, Get(body.fields, "email").s)
    ensures body.JObject? && Get(body.fields, "name").JString? && |Get(body.fields, "name").s| < MinNameLength
      ==> p.Failure? && p.issues[0] == Issue(NameTooShort)
  {
    if !body.JObject? then Failure([InvalidType("object", body)])
    else
      var name := match StringValue(Get(body.fields, "name"))
        case Failure(issues) => Failure(issues)
        case Success(s) => if |s| < MinNameLength then Failure([Issue(NameTooShort)]) else Success(s);
      var email := match StringValue(Get(body.fields, "email"))
        case Failure(issues) => Failure(issues)
        case Success(s) => if checks.isEmail(s) then Success(s) else Failure([Issue(ZodSchemas.EmailInvalid)]);
      if name.Success? && email.Success? then Success(UserFormData(name.data, email.data))
      else Failure(IssuesOf(name) + IssuesOf(email))
  }

  /** `getZodErrorMessage`: the first issue's message, unless there is no
      issue or that message is empty (`||` treats `''` as missing), when it
      is the fixed fallback. The result is never empty. */
  function GetZodErrorMessage(errors: seq<Issue>): (m: string)
    ensures m != ""
    ensures |errors| > 0 && errors[0].message != "" ==> m == errors[0].message
    ensures |errors| == 0 ==> m == FallbackMessage
    ensures |errors| > 0 && errors[0].message == "" ==> m == FallbackMessage
  {
    if |errors| > 0 && errors[0].message != "" then errors[0].message else FallbackMessage
  }

  /** An email the check rejects is reported whatever the name is. */
  lemma UserEmailRejected(body: Json, checks: Checks)
    requires body.JObject?
    requires Get(body.fields, "email").JString? && !checks.isEmail(Get(body.fields, "email").s)
    ensures ParseUser(body, checks).Failure?
    ensures Issue(ZodSchemas.EmailInvalid) in ParseUser(body, checks).issues
  {
  }

  /** Every issue the user schema reports has a message, so the
      message shown for a failed user form is the first issue's. */
  lemma UserFormMessage(body: Json, checks: Checks)
    requires ParseUser(body, checks).Failure?
    ensures GetZodErrorMessage(ParseUser(body, checks).issues) == ParseUser(body, checks).issues[0].message
  {
  }
}
