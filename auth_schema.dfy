/** `auth.schema.ts`: the register and login validators. The email format check is the
    predicate `isEmail`, left abstract. */
module AuthSchema {
  import opened Common
  import opened Zod

  const EmailMessage := "Invalid email format"
  const PasswordMessage := "Password must be at least 6 characters long"
  const PasswordRequiredMessage := "Password is required"

  /** The values `z.enum(['super_admin', 'admin', 'user'])` admits. */
  const RegisterRoles: seq<string> := ["super_admin", "admin", "user"]

  /** The role a register body that names none receives. */
  const DefaultRole := "user"

  datatype RegisterInput = RegisterInput(name: string, email: string, password: string, confirmPassword: string, role: string)

  datatype LoginInput = LoginInput(email: string, password: string)

  function NameIssues(v: Option<Json>): (r: seq<ZodIssue>)
    ensures r == [] <==> IsString(v)
  {
    if IsString(v) then [] else [ZodIssue(["name"], InvalidType, None)]
  }

  /** `z.enum([...]).default('user')`: `undefined` becomes the default, anything else must
      be one of the values. */
  function RoleIssues(v: Option<Json>): (r: seq<ZodIssue>)
    ensures r == [] <==> v.None? || (IsString(v) && StringOf(v) in RegisterRoles)
  {
    if v.None? then [] else EnumIssues("role", v, RegisterRoles)
  }

  function RegisterIssues(body: Json, isEmail: string -> bool): seq<ZodIssue> {
    if !body.JObj? then NotAnObject
    else
      NameIssues(Get(body, "name"))
      + EmailIssues("email", Get(body, "email"), isEmail, EmailMessage)
      + MinIssues("password", Get(body, "password"), 6, Some(PasswordMessage))
      + MinIssues("confirmPassword", Get(body, "confirmPassword"), 6, Some(PasswordMessage))
      + RoleIssues(Get(body, "role"))
  }

  /** `registerSchema.safeParse(body)`. */
  function ParseRegister(body: Json, isEmail: string -> bool): (r: Parsed<RegisterInput>)
    ensures r.Invalid? ==> r.issues != []
  {
    var issues := RegisterIssues(body, isEmail);
    if issues != [] then Invalid(issues)
    else
      var role := Get(body, "role");
      Valid(RegisterInput(
        StringOf(Get(body, "name")),
        StringOf(Get(body, "email")),
        StringOf(Get(body, "password")),
        StringOf(Get(body, "confirmPassword")),
        if role.None? then DefaultRole else StringOf(role)))
  }

  /** A register body parses exactly when name is any string (the empty one included),
      email passes the format check, password and confirmPassword each have a `.length` of
      at least 6 (UTF-16 code units), and role is absent or one of the three values; an
      absent role becomes `'user'`. Whether the two passwords are equal is not checked. */
  lemma RegisterRules(body: Json, isEmail: string -> bool)
    ensures ParseRegister(body, isEmail).Valid? <==>
      && body.JObj?
      && IsString(Get(body, "name"))
      && IsString(Get(body, "email")) && isEmail(StringOf(Get(body, "email")))
      && IsString(Get(body, "password")) && Utf16Length(StringOf(Get(body, "password"))) >= 6
      && IsString(Get(body, "confirmPassword")) && Utf16Length(StringOf(Get(body, "confirmPassword"))) >= 6
      && (Get(body, "role").None? || (IsString(Get(body, "role")) && StringOf(Get(body, "role")) in RegisterRoles))
    ensures ParseRegister(body, isEmail).Valid? ==>
      var d := ParseRegister(body, isEmail).data;
      && Get(body, "name") == Some(JStr(d.name))
      && Get(body, "email") == Some(JStr(d.email)) && isEmail(d.email)
      && Get(body, "password") == Some(JStr(d.password)) && Utf16Length(d.password) >= 6
      && Utf16Length(d.confirmPassword) >= 6
      && d.role in RegisterRoles
      && (Get(body, "role").None? ==> d.role == DefaultRole)
  {
  }

  function LoginIssues(body: Json, isEmail: string -> bool): seq<ZodIssue> {
    if !body.JObj? then NotAnObject
    else
      EmailIssues("email", Get(body, "email"), isEmail, EmailMessage)
      + MinIssues("password", Get(body, "password"), 1, Some(PasswordRequiredMessage))
  }

  /** `loginSchema.safeParse(body)`. */
  function ParseLogin(body: Json, isEmail: string -> bool): (r: Parsed<LoginInput>)
    ensures r.Invalid? ==> r.issues != []
  {
    var issues := LoginIssues(body, isEmail);
    if issues != [] then Invalid(issues)
    else Valid(LoginInput(StringOf(Get(body, "email")), StringOf(Get(body, "password"))))
  }

  /** A login body parses exactly when its email passes the format check and its password
      is a non-empty string. */
  lemma LoginRules(body: Json, isEmail: string -> bool)
    ensures ParseLogin(body, isEmail).Valid? <==>
      && body.JObj?
      && IsString(Get(body, "email")) && isEmail(StringOf(Get(body, "email")))
      && IsString(Get(body, "password")) && StringOf(Get(body, "password")) != ""
    ensures ParseLogin(body, isEmail).Valid? ==>
      var d := ParseLogin(body, isEmail).data;
      Get(body, "email") == Some(JStr(d.email)) && Get(body, "password") == Some(JStr(d.password))
  {
  }
}
