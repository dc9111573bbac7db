/**
 Particular inputs to the registration schema and what it reports for them.
 */
module Scenarios {
  import opened Wrappers
  import opened Utf16
  import opened Patterns
  import opened Schema
  import Choices

  /** A name with no space fails with the name message. */
  lemma NameWithoutSpaceFails()
    ensures NameRule("John") == Some(Message("Enter your full name"))
  {
  }

  /** Two words separated by one space pass. */
  lemma TwoWordNamePasses()
    ensures NameRule("John Smith") == None
  {
    var s := "John Smith";
    assert forall j :: 0 <= j < |s| && j != 4 ==> 'A' <= s[j] <= 'z';
    assert IsFullName(s) by {
      assert s[4] == ' ';
    }
  }

  /** A leading space fails the name rule. */
  lemma LeadingSpaceNameFails()
    ensures NameRule(" John Smith").Some?
  {
    var s := " John Smith";
    assert IsWhiteSpace(s[0]);
    assert !IsFullName(s);
  }

  /** A doubled space fails the name rule. */
  lemma DoubleSpaceNameFails()
    ensures NameRule("John  Smith").Some?
  {
    var s := "John  Smith";
    assert IsWhiteSpace(s[4]) && IsWhiteSpace(s[5]);
    assert !IsFullName(s);
  }

  /** A tab in place of the space fails the name rule. */
  lemma TabNameFails()
    ensures NameRule("John\tSmith").Some?
  {
    var s := "John\tSmith";
    assert forall i :: 0 <= i < |s| ==> s[i] != ' ';
    assert !IsFullName(s);
  }

  /** Ten characters of any kind satisfy the mobile rule; nine do not. */
  lemma MobileIgnoresContent()
    ensures MinLength("abcdefghij", 10, "Required") == None
    ensures MinLength("123456789", 10, "Required") == Some(Message("Required"))
  {
    assert forall i :: 0 <= i < |"123456789"| ==> IsBmp("123456789"[i]);
  }

  /** Three emoji make six code units, which satisfies the password minimum. */
  lemma AstralPasswordPasses()
    ensures MinLength("\U{1F600}\U{1F600}\U{1F600}", 6, "Must contain atleaset 6 character(s)") == None
  {
    var s := "\U{1F600}\U{1F600}\U{1F600}";
    assert !IsBmp(s[0]) && !IsBmp(s[1]) && !IsBmp(s[2]);
    assert s[1..][1..][1..] == [];
    assert |Units(s[1..][1..])| == 2;
    assert |Units(s[1..])| == 4;
  }

  /** An empty phone number is falsy and passes. */
  lemma EmptyPhonePasses()
    ensures PhoneRule(Some("")) == None
  {
  }

  /** Ten digits pass the phone rule. */
  lemma TenDigitPhonePasses()
    ensures PhoneRule(Some("0123456789")) == None
  {
    var s := "0123456789";
    assert IsPhoneNumber(s);
  }

  /** Five digits fail the phone rule. */
  lemma ShortPhoneFails()
    ensures PhoneRule(Some("12345")) == Some(Message("Invalid phone number"))
  {
  }

  /** A letter among ten characters fails the phone rule. */
  lemma LetterInPhoneFails()
    ensures PhoneRule(Some("012345678x")) == Some(Message("Invalid phone number"))
  {
    var s := "012345678x";
    assert !IsAsciiDigit(s[9]);
  }

  /** A role outside the enumeration, or none at all, is reported with the role message. */
  lemma RoleOutsideEnumFails()
    ensures RoleRule(Some("owner")) == Some(Message("Please select a role"))
    ensures RoleRule(None) == Some(Message("Please select a role"))
    ensures RoleRule(Some("driver")) == None
  {
  }

  /** A complete candidate without `active` validates to a record with `active` set. */
  lemma ValidCandidateDefaultsActive(isEmail: string -> bool)
    requires isEmail("jo@example.com")
    ensures
      var c := Candidate(None, "John Smith", "jo@example.com", "secret", "0300000000",
        "1 Main St", "Lahore", "5400", "Punjab", None, "pakistan", Some("agent"));
      Validate(c, isEmail).Success? && Validate(c, isEmail).value.active
  {
    var c := Candidate(None, "John Smith", "jo@example.com", "secret", "0300000000",
      "1 Main St", "Lahore", "5400", "Punjab", None, "pakistan", Some("agent"));
    TwoWordNamePasses();
    assert IsFullName(c.name);
    LengthBounds(c.password);
    LengthBounds(c.mobile);
    LengthBounds(c.zipcode);
    assert forall f :: Admits(c, f, isEmail) by {
      forall f ensures Admits(c, f, isEmail) {
        match f
        case Country => assert c.country == Choices.CountryOptions[1];
        case Role => assert c.role.value == Choices.RoleOptions[2];
        case _ =>
      }
    }
  }
}
