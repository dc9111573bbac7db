# Registration form schema

A Dafny model of the validation core of a single-page registration form
(`src/app/page.tsx`). The page declares a zod schema for a registration record
(name, e-mail, password, mobile, optional phone, address, city, zipcode, state,
the `active` switch, country and role) together with the role enumeration and
the label shown for each role. The model turns each field rule into a pure
function with its fixed message, and the schema into `Schema.Validate`, which
returns either the completed record (with `active` defaulting to `true`) or a
map from every failing field to its issue.

Modules:

- `Wrappers` (`wrappers.dfy`): `Option` and `Result`.
- `Utf16` (`utf16.dfy`): JavaScript strings are UTF-16 code units, and zod's
  `min`/`nonempty` compare `String.prototype.length`, which counts code units.
  The module gives the encoding (`Units`), its inverse (`Decode`) and the
  relation between the code-unit length and the character count.
- `Patterns` (`patterns.dfy`): the regular expressions `^\S+ \S+$` and
  `^\d{10,}$`. They carry no `u` flag, so JavaScript matches them over code
  units. The name pattern is a five-state automaton run over `Units(s)`, the
  phone pattern a counting digit run; each is proved equal to a statement on
  the characters of the string (`IsFullName`, `IsPhoneNumber`). `\s` is the
  ECMAScript WhiteSpace and LineTerminator set and `\d` is `0`-`9`.
- `Choices` (`choices.dfy`): the role and country enumerations, their parsers,
  and the role label map, spelling kept as written (`"Affliate"`,
  `"PSassenger"`).
- `Schema` (`schema.dfy`): the candidate record, the field rules, `Validate`.
- `Scenarios` (`scenarios.dfy`): particular inputs and their outcomes.

Design decisions:

- The name rule is what the regular expression says, not the looser "contains
  a space": exactly one plain space, not first or last, and no other whitespace
  anywhere.
- The phone refinement tests `if (value)`, so an absent phone and the empty
  string both pass. Any other value must be ten or more ASCII digits.
- The mobile rule is a length check only, whatever the characters.
- A character outside the Basic Multilingual Plane counts twice toward
  `min`: three emoji satisfy the six-character password minimum.
- The role enum's error map replaces every failure, a missing role included,
  with "Please select a role", so `role` is optional in the candidate.
- The e-mail check is zod's own. It is the parameter `isEmail` of
  `Validate`, and its failure is reported as the library default for the
  `invalid_string` issue code. A country outside the enumeration is reported
  as the library default for `invalid_enum_value`. Neither message text is
  part of this model.

## Model

| member | source | states |
|---|---|---|
| Utf16.DecodeUnits | src/app/page.tsx:54-62 | decoding the UTF-16 code units of any string gives the same string back, so the length the rules measure is the length of a faithful encoding |
| Utf16.LengthBounds | src/app/page.tsx:54-62 | the JavaScript length of a string is between its character count and twice that, and equals the character count exactly when every character is in the Basic Multilingual Plane |
| Utf16.EmptyLength | src/app/page.tsx:58-59 | a string has JavaScript length 0 exactly when it is empty |
| Patterns.AcceptsFromStart | src/app/page.tsx:52 | the name automaton ends accepting exactly when one interior position holds a plain space and no other position holds whitespace |
| Patterns.AcceptsFromInFirst | src/app/page.tsx:52 | after the first word has begun, the automaton accepts exactly the inputs whose only whitespace is one plain space before the last position |
| Patterns.AcceptsFromAfterSpace | src/app/page.tsx:52 | after the space, the automaton accepts exactly the non-empty inputs without whitespace |
| Patterns.AcceptsFromInLast | src/app/page.tsx:52 | inside the last word, the automaton accepts exactly the inputs without whitespace |
| Patterns.RunUnits | src/app/page.tsx:52 | running the name automaton over the UTF-16 code units of a string ends in the same state as running it over the characters |
| Patterns.MatchesFullName | src/app/page.tsx:52 | the name regular expression matches exactly the strings of one or more non-whitespace characters, one plain space, one or more non-whitespace characters |
| Patterns.DigitRun | src/app/page.tsx:43 | `\d{n,}` over code units holds exactly when there are at least n units and every unit is an ASCII digit |
| Patterns.DigitUnits | src/app/page.tsx:43 | the code units of a string are all digits exactly when its characters are all ASCII digits |
| Patterns.MatchesPhoneNumber | src/app/page.tsx:43 | the phone regular expression matches exactly the strings of ten or more ASCII digits |
| Choices.RoleName | src/app/page.tsx:17-24 | the value of every role is one of the listed role options |
| Choices.ParseRole | src/app/page.tsx:17-25 | a string is a role exactly when it is one of the six listed options, and the role found has that string as its value |
| Choices.ParseRoleName | src/app/page.tsx:17-25 | parsing the value of a role gives that role back |
| Choices.RoleOptionsDistinct | src/app/page.tsx:17-24 | the six role options are pairwise distinct |
| Choices.MappedRoleOptionsTotal | src/app/page.tsx:27-34 | every role has a label, the label map has no key that is not a role, and no two roles share a label |
| Choices.CountryName | src/app/page.tsx:65 | the value of every country is one of the three enumerated options |
| Choices.ParseCountry | src/app/page.tsx:65 | a string is a country exactly when it is india, pakistan or america, and the country found has that string as its value |
| Choices.ParseCountryName | src/app/page.tsx:65 | parsing the value of a country gives that country back |
| Schema.PhoneRule | src/app/page.tsx:36-50 | the phone passes exactly when it is absent, empty, or ten or more ASCII digits; otherwise it fails with "Invalid phone number" |
| Schema.NameRule | src/app/page.tsx:52 | the name passes exactly when it is two whitespace-free words joined by one plain space; otherwise it fails with "Enter your full name" |
| Schema.EmailRule | src/app/page.tsx:53 | the e-mail passes exactly when the library's address check accepts it; otherwise it fails with the library default for `invalid_string` |
| Schema.MinLength | src/app/page.tsx:54-57 | the value passes exactly when its JavaScript length reaches the minimum; any string with that many characters passes, none shorter than half the minimum does, and for Basic Multilingual Plane text the rule is the character count; the failure carries the given message |
| Schema.NonEmpty | src/app/page.tsx:58-59 | the value passes exactly when it is non-empty, a single whitespace character included; otherwise it fails with the given message |
| Schema.CountryRule | src/app/page.tsx:65 | the country passes exactly when it is one of the three options; otherwise it fails with the library default for `invalid_enum_value` |
| Schema.RoleRule | src/app/page.tsx:66-68 | the role passes exactly when it is present and one of the six options; otherwise, missing included, it fails with "Please select a role" |
| Schema.Check | src/app/page.tsx:35-69 | a field's rule passes exactly when the field's declarative condition holds, and a failure reports that field's fixed issue |
| Schema.Collect | src/app/page.tsx:35-69 | checking a list of fields keeps exactly the listed fields that fail, each with its fixed issue |
| Schema.SchemaOrderCoversFields | src/app/page.tsx:35-69 | every field of the record is a key of the schema object |
| Schema.Issues | src/app/page.tsx:35-69 | the issue map holds exactly the failing fields, each with its fixed issue |
| Schema.Validate | src/app/page.tsx:35-69 | validation succeeds exactly when no field fails; a failure maps exactly the failing fields to their fixed issues and is never empty; a success keeps every field of the input, parses country and role into values whose names are the input strings, and sets `active` to the given boolean or to true when it is absent |
| Schema.FieldIndependence | src/app/page.tsx:35-69 | two candidates that agree on a field's value agree on whether `Validate` reports that field among its errors |
| Scenarios.NameWithoutSpaceFails | src/app/page.tsx:52 | "John" fails with "Enter your full name" |
| Scenarios.TwoWordNamePasses | src/app/page.tsx:52 | "John Smith" passes the name rule |
| Scenarios.LeadingSpaceNameFails | src/app/page.tsx:52 | a name with a leading space fails the name rule |
| Scenarios.DoubleSpaceNameFails | src/app/page.tsx:52 | a name with two spaces between the words fails the name rule |
| Scenarios.TabNameFails | src/app/page.tsx:52 | a tab in place of the space fails the name rule |
| Scenarios.MobileIgnoresContent | src/app/page.tsx:57 | ten letters pass the mobile rule and nine digits fail it with "Required" |
| Scenarios.AstralPasswordPasses | src/app/page.tsx:54-56 | three characters outside the Basic Multilingual Plane satisfy the six-character password minimum |
| Scenarios.EmptyPhonePasses | src/app/page.tsx:41-45 | the empty phone string passes |
| Scenarios.TenDigitPhonePasses | src/app/page.tsx:43 | ten digits pass the phone rule |
| Scenarios.ShortPhoneFails | src/app/page.tsx:43-48 | five digits fail with "Invalid phone number" |
| Scenarios.LetterInPhoneFails | src/app/page.tsx:43-48 | nine digits and a letter fail with "Invalid phone number" |
| Scenarios.RoleOutsideEnumFails | src/app/page.tsx:66-68 | an unknown role and a missing role fail with "Please select a role"; "driver" passes |
| Scenarios.ValidCandidateDefaultsActive | src/app/page.tsx:35-69 | a complete, valid candidate without `active` validates, and its record has `active` set to true |

## Left out

- Strings holding an unpaired surrogate: a JavaScript string may contain one, but a Dafny string holds only Unicode scalar values, so the candidate's text fields cannot represent it. JavaScript would treat such a unit as `\S` and count it as 1 in `length`.
- E-mail validation: the address check and its message belong to zod, which is not part of this model; it is the parameter `isEmail`.
- The message text of zod's default issues (`invalid_string` for the e-mail, `invalid_enum_value` for the country): library behaviour, kept only as the issue code.
- Type-level failures (a field missing or of the wrong JavaScript type, other than the role, whose error map covers them): library behaviour. The candidate's fields have the types the form supplies.
- `zodResolver` and react-hook-form's error plumbing: each field has one rule, so the "first error per field" the resolver keeps is the only one.
- `\s` follows the Unicode space separators of current Unicode versions; a JavaScript engine with older Unicode data could differ.
- The React page (lines 72-313): inputs, Select and Switch widgets, the `type="number"` attribute on the zipcode input, the default e-mail value, `isSubmitting` gating, and `onSubmit`, which only logs to the console.
