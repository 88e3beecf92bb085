/**
 * The shared types of the user directory (src/types/index.ts): the closed `Role`
 * enumeration, the `User` record served by the directory API, the `UserFormData`
 * record entered through the add-user form, and the field rules of `userFormSchema`.
 */
module Types {
  import opened Wrappers

  // ---------------------------------------------------------------- roles

  /** The three roles a form user may have. */
  datatype Role = Admin | Editor | Viewer

  /** The string value each enum member stands for at run time. */
  function RoleName(r: Role): string
  {
    match r
    case Admin => "Admin"
    case Editor => "Editor"
    case Viewer => "Viewer"
  }

  /** What the native-enum rule accepts: exactly the string values of the enum. */
  function ParseRole(s: string): (r: Option<Role>)
    ensures r.Some? ==> RoleName(r.value) == s
  {
    if s == "Admin" then Some(Admin)
    else if s == "Editor" then Some(Editor)
    else if s == "Viewer" then Some(Viewer)
    else None
  }

  /** The enumeration has exactly three members with three distinct string values. */
  lemma RoleHasExactlyThreeValues()
    ensures forall r: Role :: RoleName(r) in {"Admin", "Editor", "Viewer"}
    ensures |{RoleName(Admin), RoleName(Editor), RoleName(Viewer)}| == 3
  {
    assert RoleName(Admin) != RoleName(Editor) by { assert RoleName(Admin)[0] != RoleName(Editor)[0]; }
    assert RoleName(Admin) != RoleName(Viewer) by { assert RoleName(Admin)[0] != RoleName(Viewer)[0]; }
    assert RoleName(Editor) != RoleName(Viewer) by { assert RoleName(Editor)[0] != RoleName(Viewer)[0]; }
  }

  /** A string is accepted as a role exactly when it is the value of a member, and parsing inverts `RoleName`. */
  lemma {:induction false} ParseRoleExact(s: string)
    ensures ParseRole(s).Some? <==> s in {"Admin", "Editor", "Viewer"}
    ensures forall r: Role :: ParseRole(RoleName(r)) == Some(r)
  {
    RoleHasExactlyThreeValues();
  }

  // ---------------------------------------------------------------- records

  /**
   * The value of an `id` field. The interface types it as a number, but records read
   * back from local storage are only cast to `User`, so a string may stand there too.
   */
  datatype IdValue = NumberId(n: int) | StringId(s: string)

  datatype Company = Company(name: string, catchPhrase: Option<string>, bs: Option<string>)

  datatype Geo = Geo(lat: string, lng: string)

  datatype Address = Address(street: string, suite: string, city: string, zipcode: string, geo: Option<Geo>)

  /** A directory record; every field but `name` and `email` is optional. */
  datatype User = User(
    id: Option<IdValue>,
    name: string,
    email: string,
    age: Option<real>,
    phone: Option<string>,
    website: Option<string>,
    company: Option<Company>,
    address: Option<Address>)

  /** A record accepted by the add-user form. It has no `id` field. */
  datatype UserFormData = UserFormData(name: string, email: string, age: real, role: Role)

  // ---------------------------------------------------------------- the form schema

  /** The form fields, which are the keys of the error map. */
  datatype Field = NameField | EmailField | AgeField | RoleField

  /**
   * The age control is a number input read with `valueAsNumber`: either a number
   * (not necessarily whole) or NaN when the control is empty or unreadable.
   */
  datatype AgeInput = Number(value: real) | NotANumber

  /** What the form hands to the schema: two text fields, the age control and the selected option. */
  datatype RawInput = RawInput(name: string, email: string, age: AgeInput, role: string)

  const NameRequired := "Name is required"
  const InvalidEmail := "Invalid email address"
  const AgeTooLow := "Age must be 18 or older"
  /** The schema library's own message for a number field that received NaN. */
  const AgeNotANumber := "Expected number, received nan"
  const InvalidRole := "Please select a valid role"
  const MinimumAge: real := 18.0

  /** `z.string().min(1, …)`: at least one character; blanks count. */
  function NameError(name: string): Option<string>
  {
    if |name| >= 1 then None else Some(NameRequired)
  }

  /** `z.string().email(…)`, with the address pattern left as the parameter `isEmail`. */
  function EmailError(email: string, isEmail: string -> bool): Option<string>
  {
    if isEmail(email) then None else Some(InvalidEmail)
  }

  /** `z.number().min(18, …)`: the type check comes first, then the minimum (inclusive). */
  function AgeError(age: AgeInput): Option<string>
  {
    match age
    case NotANumber => Some(AgeNotANumber)
    case Number(v) => if v >= MinimumAge then None else Some(AgeTooLow)
  }

  /** `z.nativeEnum(Role, …)` with an error map that gives every failure the same message. */
  function RoleError(role: string): Option<string>
  {
    if ParseRole(role).Some? then None else Some(InvalidRole)
  }

  /** Every failing field with its message; the object schema reports all of them together. */
  function FieldErrors(raw: RawInput, isEmail: string -> bool): (m: map<Field, string>)
    ensures NameField in m <==> NameError(raw.name).Some?
    ensures EmailField in m <==> EmailError(raw.email, isEmail).Some?
    ensures AgeField in m <==> AgeError(raw.age).Some?
    ensures RoleField in m <==> RoleError(raw.role).Some?
    ensures NameField in m ==> m[NameField] == NameError(raw.name).value
    ensures EmailField in m ==> m[EmailField] == EmailError(raw.email, isEmail).value
    ensures AgeField in m ==> m[AgeField] == AgeError(raw.age).value
    ensures RoleField in m ==> m[RoleField] == RoleError(raw.role).value
  {
    var withName := if NameError(raw.name).Some? then map[NameField := NameError(raw.name).value] else map[];
    var withEmail := if EmailError(raw.email, isEmail).Some? then withName[EmailField := EmailError(raw.email, isEmail).value] else withName;
    var withAge := if AgeError(raw.age).Some? then withEmail[AgeField := AgeError(raw.age).value] else withEmail;
    if RoleError(raw.role).Some? then withAge[RoleField := RoleError(raw.role).value] else withAge
  }

  /** What a record must satisfy to be one the schema can produce. */
  ghost predicate SchemaValid(d: UserFormData, isEmail: string -> bool)
  {
    |d.name| >= 1 && isEmail(d.email) && d.age >= MinimumAge
  }

  /** The raw form input that carries a given record unchanged. */
  function ToRaw(d: UserFormData): RawInput
  {
    RawInput(d.name, d.email, Number(d.age), RoleName(d.role))
  }

  /**
   * `userFormSchema` applied to a form input: the validated record, or the map from
   * each failing field to its message. It is a function of its input alone.
   */
  function Validate(raw: RawInput, isEmail: string -> bool): (r: Result<UserFormData, map<Field, string>>)
    ensures r.Success? <==>
      |raw.name| >= 1 && isEmail(raw.email) && raw.age.Number? && raw.age.value >= 18.0
      && raw.role in {"Admin", "Editor", "Viewer"}
    ensures r.Success? ==>
      r.value.name == raw.name && r.value.email == raw.email
      && Number(r.value.age) == raw.age && RoleName(r.value.role) == raw.role
    ensures r.Failure? ==> r.error != map[]
    ensures r.Failure? ==> (NameField in r.error <==> raw.name == "")
    ensures r.Failure? ==> (EmailField in r.error <==> !isEmail(raw.email))
    ensures r.Failure? ==> (AgeField in r.error <==> !(raw.age.Number? && raw.age.value >= 18.0))
    ensures r.Failure? ==> (RoleField in r.error <==> raw.role !in {"Admin", "Editor", "Viewer"})
    ensures r.Failure? && NameField in r.error ==> r.error[NameField] == "Name is required"
    ensures r.Failure? && EmailField in r.error ==> r.error[EmailField] == "Invalid email address"
    ensures r.Failure? && AgeField in r.error ==>
      r.error[AgeField] == if raw.age.Number? then "Age must be 18 or older" else "Expected number, received nan"
    ensures r.Failure? && RoleField in r.error ==> r.error[RoleField] == "Please select a valid role"
  {
    ParseRoleExact(raw.role);
    var errors := FieldErrors(raw, isEmail);
    if errors == map[] then
      Success(UserFormData(raw.name, raw.email, raw.age.value, ParseRole(raw.role).value))
    else
      Failure(errors)
  }

  /** Every record the schema produces satisfies the field rules. */
  lemma ValidatedIsSchemaValid(raw: RawInput, isEmail: string -> bool)
    requires Validate(raw, isEmail).Success?
    ensures SchemaValid(Validate(raw, isEmail).value, isEmail)
  {
  }

  /** Every record that satisfies the field rules passes the schema unchanged when entered in the form. */
  lemma {:induction false} ValidateAcceptsSchemaValid(d: UserFormData, isEmail: string -> bool)
    requires SchemaValid(d, isEmail)
    ensures Validate(ToRaw(d), isEmail) == Success(d)
  {
    ParseRoleExact(RoleName(d.role));
    RoleHasExactlyThreeValues();
  }

  /** A blank name is one character long, so it is accepted; the empty name is not. */
  lemma NameRuleExamples(isEmail: string -> bool)
    requires isEmail("a@b.co")
    ensures Validate(RawInput(" ", "a@b.co", Number(30.0), "Admin"), isEmail).Success?
    ensures Validate(RawInput("", "a@b.co", Number(30.0), "Admin"), isEmail)
      == Failure(map[NameField := "Name is required"])
  {
  }

  /** 18 is the inclusive minimum, and a fractional age is not rejected. */
  lemma AgeRuleExamples(isEmail: string -> bool)
    requires isEmail("a@b.co")
    ensures Validate(RawInput("Ann", "a@b.co", Number(18.0), "Viewer"), isEmail).Success?
    ensures Validate(RawInput("Ann", "a@b.co", Number(18.5), "Viewer"), isEmail).Success?
    ensures Validate(RawInput("Ann", "a@b.co", Number(17.0), "Viewer"), isEmail)
      == Failure(map[AgeField := "Age must be 18 or older"])
  {
  }

  /** The form's placeholder option "" is not a role; neither is the enum key "ADMIN". */
  lemma RoleRuleExamples(isEmail: string -> bool)
    requires isEmail("a@b.co")
    ensures Validate(RawInput("Ann", "a@b.co", Number(40.0), ""), isEmail)
      == Failure(map[RoleField := "Please select a valid role"])
    ensures Validate(RawInput("Ann", "a@b.co", Number(40.0), "ADMIN"), isEmail).Failure?
  {
  }

  /** An empty name, an age of 15 and no role give three messages at once. */
  lemma AllFailuresReportedTogether(isEmail: string -> bool)
    requires isEmail("a@b.co") && !isEmail("nope")
    ensures Validate(RawInput("", "a@b.co", Number(15.0), ""), isEmail)
      == Failure(map[NameField := "Name is required", AgeField := "Age must be 18 or older",
                     RoleField := "Please select a valid role"])
    ensures Validate(RawInput("", "nope", NotANumber, ""), isEmail).Failure?
    ensures |Validate(RawInput("", "nope", NotANumber, ""), isEmail).error| == 4
  {
  }
}
