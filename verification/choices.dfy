/**
 The two enumerations of the registration form: the user role, with the
 display label each role is shown under, and the country.
 */
module Choices {
  import opened Wrappers

  datatype Role = Admin | Manager | Agent | Driver | Affiliate | Passenger

  /** `roleOptions`: the accepted role values, in declaration order. */
  const RoleOptions: seq<string> :=
    ["admin", "manager", "agent", "driver", "affiliate", "passenger"]

  /** `mappedRoleOptions`: the label shown for each role value, spelling included. */
  const MappedRoleOptions: map<string, string> := map[
    "admin" := "Admin",
    "manager" := "Manager",
    "agent" := "Agent",
    "driver" := "Driver",
    "affiliate" := "Affliate",
    "passenger" := "PSassenger"
  ]

  function RoleName(r: Role): (s: string)
    ensures s in RoleOptions
  {
    match r
    case Admin => "admin"
    case Manager => "manager"
    case Agent => "agent"
    case Driver => "driver"
    case Affiliate => "affiliate"
    case Passenger => "passenger"
  }

  /** What `z.enum(roleOptions)` accepts, and the role it stands for. */
  function ParseRole(s: string): (r: Option<Role>)
    ensures r.Some? <==> s in RoleOptions
    ensures r.Some? ==> RoleName(r.value) == s
  {
    if s == "admin" then Some(Admin)
    else if s == "manager" then Some(Manager)
    else if s == "agent" then Some(Agent)
    else if s == "driver" then Some(Driver)
    else if s == "affiliate" then Some(Affiliate)
    else if s == "passenger" then Some(Passenger)
    else None
  }

  lemma ParseRoleName(r: Role)
    ensures ParseRole(RoleName(r)) == Some(r)
  {
  }

  /** The role values are pairwise distinct, so each names one role. */
  lemma RoleOptionsDistinct()
    ensures forall i, j :: 0 <= i < j < |RoleOptions| ==> RoleOptions[i] != RoleOptions[j]
  {
  }

  /** Every role has exactly one label, the label map has no other keys, and no
      two roles share a label. */
  lemma MappedRoleOptionsTotal()
    ensures forall r: Role :: RoleName(r) in MappedRoleOptions
    ensures forall k :: k in MappedRoleOptions ==> ParseRole(k).Some?
    ensures forall a: Role, b: Role ::
      a != b ==> MappedRoleOptions[RoleName(a)] != MappedRoleOptions[RoleName(b)]
  {
  }

  datatype Country = India | Pakistan | America

  /** The values `z.enum(["india", "pakistan", "america"])` accepts. */
  const CountryOptions: seq<string> := ["india", "pakistan", "america"]

  function CountryName(c: Country): (s: string)
    ensures s in CountryOptions
  {
    match c
    case India => "india"
    case Pakistan => "pakistan"
    case America => "america"
  }

  function ParseCountry(s: string): (r: Option<Country>)
    ensures r.Some? <==> s in CountryOptions
    ensures r.Some? ==> CountryName(r.value) == s
  {
    if s == "india" then Some(India)
    else if s == "pakistan" then Some(Pakistan)
    else if s == "america" then Some(America)
    else None
  }

  lemma ParseCountryName(c: Country)
    ensures ParseCountry(CountryName(c)) == Some(c)
  {
  }
}
