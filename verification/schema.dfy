/**
 The registration schema: one rule per field of the form, each with its fixed
 message, and `Validate`, which either completes the record (filling in the
 default for `active`) or maps every failing field to its issue.
 */
module Schema {
  import opened Wrappers
  import opened Utf16
  import opened Patterns
  import Choices

  datatype Field =
    | Phone | Name | Email | Password | Mobile | Address | City
    | Zipcode | State | Active | Country | Role

  /** The keys of the schema object, in declaration order. */
  const SchemaOrder: seq<Field> :=
    [Phone, Name, Email, Password, Mobile, Address, City, Zipcode, State, Active, Country, Role]

  /** The zod issue codes whose message text the schema leaves to the library. */
  datatype IssueCode = InvalidString | InvalidEnumValue

  /** What a failing field reports: a message written in the schema, or the
      library's default message for an issue code. */
  datatype Issue = Message(text: string) | LibraryDefault(code: IssueCode)

  /** The form values handed to the schema; `undefined` is `None`. */
  datatype Candidate = Candidate(
    phone: Option<string>,
    name: string,
    email: string,
    password: string,
    mobile: string,
    address: string,
    city: string,
    zipcode: string,
    state: string,
    active: Option<bool>,
    country: string,
    role: Option<string>)
  {
    /** The one value the rule for field `f` looks at. */
    function Get(f: Field): Value
    {
      match f
      case Phone => OptionalText(phone)
      case Name => Text(name)
      case Email => Text(email)
      case Password => Text(password)
      case Mobile => Text(mobile)
      case Address => Text(address)
      case City => Text(city)
      case Zipcode => Text(zipcode)
      case State => Text(state)
      case Active => OptionalFlag(active)
      case Country => Text(country)
      case Role => OptionalText(role)
    }
  }

  datatype Value = Text(s: string) | OptionalText(o: Option<string>) | OptionalFlag(b: Option<bool>)

  /** A validated registration record. */
  datatype Record = Record(
    phone: Option<string>,
    name: string,
    email: string,
    password: string,
    mobile: string,
    address: string,
    city: string,
    zipcode: string,
    state: string,
    active: bool,
    country: Choices.Country,
    role: Choices.Role)

  // ---------------------------------------------------------------------------
  // The field rules

  /** The phone refinement: an absent or empty value is falsy and passes;
      anything else must match `^\d{10,}$`. */
  function PhoneRule(phone: Option<string>): (r: Option<Issue>)
    ensures r.None? <==> phone == None || phone == Some("") || IsPhoneNumber(phone.value)
    ensures r.Some? ==> r.value == Message("Invalid phone number")
  {
    match phone
    case None => None
    case Some(v) =>
      if v != "" && !MatchesPhoneNumber(v) then Some(Message("Invalid phone number")) else None
  }

  function NameRule(name: string): (r: Option<Issue>)
    ensures r.None? <==> IsFullName(name)
    ensures r.Some? ==> r.value == Message("Enter your full name")
  {
    if MatchesFullName(name) then None else Some(Message("Enter your full name"))
  }

  /** `z.string().email()`: the address check belongs to the library and is a
      parameter here. */
  function EmailRule(email: string, isEmail: string -> bool): (r: Option<Issue>)
    ensures r.None? <==> isEmail(email)
    ensures r.Some? ==> r.value == LibraryDefault(InvalidString)
  {
    if isEmail(email) then None else Some(LibraryDefault(InvalidString))
  }

  /** `z.string().min(min, { message })`: a check on the JavaScript length, so a
      character outside the Basic Multilingual Plane counts twice. */
  function MinLength(s: string, min: nat, message: string): (r: Option<Issue>)
    ensures r.None? <==> Length(s) >= min
    ensures |s| >= min ==> r.None?
    ensures r.None? ==> 2 * |s| >= min
    ensures (forall i :: 0 <= i < |s| ==> IsBmp(s[i])) ==> (r.None? <==> |s| >= min)
    ensures r.Some? ==> r.value == Message(message)
  {
    LengthBounds(s);
    if Length(s) < min then Some(Message(message)) else None
  }

  /** `z.string().nonempty({ message })`, which is `min(1)`: any one character passes. */
  function NonEmpty(s: string, message: string): (r: Option<Issue>)
    ensures r.None? <==> s != []
    ensures r.Some? ==> r.value == Message(message)
  {
    EmptyLength(s);
    MinLength(s, 1, message)
  }

  function CountryRule(country: string): (r: Option<Issue>)
    ensures r.None? <==> country in Choices.CountryOptions
    ensures r.Some? ==> r.value == LibraryDefault(InvalidEnumValue)
  {
    if Choices.ParseCountry(country).Some? then None else Some(LibraryDefault(InvalidEnumValue))
  }

  /** The role enum's error map replaces every failure, a missing value
      included, with one message. */
  function RoleRule(role: Option<string>): (r: Option<Issue>)
    ensures r.None? <==> role.Some? && role.value in Choices.RoleOptions
    ensures r.Some? ==> r.value == Message("Please select a role")
  {
    if role.Some? && Choices.ParseRole(role.value).Some? then None
    else Some(Message("Please select a role"))
  }

  // ---------------------------------------------------------------------------
  // The schema as a whole

  /** What each field accepts, stated on characters and enum values. */
  ghost predicate Admits(c: Candidate, f: Field, isEmail: string -> bool)
  {
    match f
    case Phone => c.phone == None || c.phone == Some("") || IsPhoneNumber(c.phone.value)
    case Name => IsFullName(c.name)
    case Email => isEmail(c.email)
    case Password => Length(c.password) >= 6
    case Mobile => Length(c.mobile) >= 10
    case Address => c.address != []
    case City => c.city != []
    case Zipcode => Length(c.zipcode) >= 4
    case State => c.state != []
    case Active => true
    case Country => c.country in Choices.CountryOptions
    case Role => c.role.Some? && c.role.value in Choices.RoleOptions
  }

  /** The one issue each field can report; `active` has a default and never fails. */
  function FixedIssue(f: Field): Option<Issue>
  {
    match f
    case Phone => Some(Message("Invalid phone number"))
    case Name => Some(Message("Enter your full name"))
    case Email => Some(LibraryDefault(InvalidString))
    case Password => Some(Message("Must contain atleaset 6 character(s)"))
    case Mobile => Some(Message("Required"))
    case Address => Some(Message("Required"))
    case City => Some(Message("Required"))
    case Zipcode => Some(Message("Must contain atleaset 4 character(s)"))
    case State => Some(Message("Required"))
    case Active => None
    case Country => Some(LibraryDefault(InvalidEnumValue))
    case Role => Some(Message("Please select a role"))
  }

  /** Applies the rule of field `f`. */
  function Check(c: Candidate, f: Field, isEmail: string -> bool): (r: Option<Issue>)
    ensures r.None? <==> Admits(c, f, isEmail)
    ensures r.Some? ==> r == FixedIssue(f)
  {
    match f
    case Phone => PhoneRule(c.phone)
    case Name => NameRule(c.name)
    case Email => EmailRule(c.email, isEmail)
    case Password => MinLength(c.password, 6, "Must contain atleaset 6 character(s)")
    case Mobile => MinLength(c.mobile, 10, "Required")
    case Address => NonEmpty(c.address, "Required")
    case City => NonEmpty(c.city, "Required")
    case Zipcode => MinLength(c.zipcode, 4, "Must contain atleaset 4 character(s)")
    case State => NonEmpty(c.state, "Required")
    case Active => None
    case Country => CountryRule(c.country)
    case Role => RoleRule(c.role)
  }

  /** Checks the given fields in turn and keeps the issue of every one that fails. */
  function Collect(c: Candidate, isEmail: string -> bool, fields: seq<Field>): (errors: map<Field, Issue>)
    ensures forall f :: f in errors <==> f in fields && !Admits(c, f, isEmail)
    ensures forall f :: f in errors ==> Some(errors[f]) == FixedIssue(f)
  {
    if fields == [] then map[]
    else
      var rest := Collect(c, isEmail, fields[1..]);
      match Check(c, fields[0], isEmail)
      case None => rest
      case Some(issue) => rest[fields[0] := issue]
  }

  lemma SchemaOrderCoversFields()
    ensures forall f: Field :: f in SchemaOrder
  {
    forall f: Field ensures f in SchemaOrder {
      match f
      case Phone => assert SchemaOrder[0] == f;
      case Name => assert SchemaOrder[1] == f;
      case Email => assert SchemaOrder[2] == f;
      case Password => assert SchemaOrder[3] == f;
      case Mobile => assert SchemaOrder[4] == f;
      case Address => assert SchemaOrder[5] == f;
      case City => assert SchemaOrder[6] == f;
      case Zipcode => assert SchemaOrder[7] == f;
      case State => assert SchemaOrder[8] == f;
      case Active => assert SchemaOrder[9] == f;
      case Country => assert SchemaOrder[10] == f;
      case Role => assert SchemaOrder[11] == f;
    }
  }

  /** The issues of a candidate, keyed by field. */
  function Issues(c: Candidate, isEmail: string -> bool): (errors: map<Field, Issue>)
    ensures forall f :: f in errors <==> !Admits(c, f, isEmail)
    ensures forall f :: f in errors ==> Some(errors[f]) == FixedIssue(f)
  {
    SchemaOrderCoversFields();
    Collect(c, isEmail, SchemaOrder)
  }

  /** `schema.safeParse`: the completed record when every field passes, else
      every failing field with its issue. */
  function Validate(c: Candidate, isEmail: string -> bool): (r: Result<Record, map<Field, Issue>>)
    ensures r.Success? <==> forall f :: Admits(c, f, isEmail)
    ensures r.Failure? ==> r.error != map[]
    ensures r.Failure? ==> forall f :: f in r.error <==> !Admits(c, f, isEmail)
    ensures r.Failure? ==> forall f :: f in r.error ==> Some(r.error[f]) == FixedIssue(f)
    ensures r.Success? ==>
      && r.value.phone == c.phone
      && r.value.name == c.name
      && r.value.email == c.email
      && r.value.password == c.password
      && r.value.mobile == c.mobile
      && r.value.address == c.address
      && r.value.city == c.city
      && r.value.zipcode == c.zipcode
      && r.value.state == c.state
      && Choices.CountryName(r.value.country) == c.country
      && c.role == Some(Choices.RoleName(r.value.role))
    ensures r.Success? ==> r.value.active == (c.active != Some(false))
  {
    var errors := Issues(c, isEmail);
    if errors != map[] then
      Failure(errors)
    else
      assert Admits(c, Country, isEmail) && Admits(c, Role, isEmail);
      var country := Choices.ParseCountry(c.country).value;
      var role := Choices.ParseRole(c.role.value).value;
      var active := match c.active case None => true case Some(b) => b;
      Success(Record(
        c.phone, c.name, c.email, c.password, c.mobile, c.address, c.city,
        c.zipcode, c.state, active, country, role))
  }

  /** Whether a field appears in the errors `Validate` reports depends on that
      field's value alone; its issue is then `FixedIssue(f)` in both. */
  lemma FieldIndependence(c1: Candidate, c2: Candidate, f: Field, isEmail: string -> bool)
    requires c1.Get(f) == c2.Get(f)
    ensures (Validate(c1, isEmail).Failure? && f in Validate(c1, isEmail).error)
        <==> (Validate(c2, isEmail).Failure? && f in Validate(c2, isEmail).error)
  {
  }
}
