/**
 The two regular expressions of the registration schema, `^\S+ \S+$` for the
 name and `^\d{10,}$` for the phone number. Neither carries the `u` flag, so
 JavaScript matches them against UTF-16 code units; the matchers here run
 over `Utf16.Units`, and each is proved equivalent to a statement about the
 characters of the string.
 */
module Patterns {
  import opened Utf16

  /** ECMAScript `\s`: the WhiteSpace and LineTerminator code points. */
  predicate IsWhiteSpaceUnit(u: int)
  {
    || 0x09 <= u <= 0x0D
    || u == 0x20 || u == 0xA0 || u == 0x1680
    || 0x2000 <= u <= 0x200A
    || u == 0x2028 || u == 0x2029 || u == 0x202F || u == 0x205F
    || u == 0x3000 || u == 0xFEFF
  }

  /** ECMAScript `\d`: the ASCII digits only. */
  predicate IsDigitUnit(u: int) { 0x30 <= u <= 0x39 }

  predicate IsWhiteSpace(c: char) { IsWhiteSpaceUnit(c as int) }

  predicate IsAsciiDigit(c: char) { '0' <= c <= '9' }

  // ---------------------------------------------------------------------------
  // The name pattern `^\S+ \S+$`

  /** The states of a deterministic automaton for `^\S+ \S+$`. */
  datatype NameState = Start | InFirst | AfterSpace | InLast | Reject

  function Step(q: NameState, u: int): NameState
  {
    match q
    case Start => if IsWhiteSpaceUnit(u) then Reject else InFirst
    case InFirst =>
      if u == 0x20 then AfterSpace else if IsWhiteSpaceUnit(u) then Reject else InFirst
    case AfterSpace => if IsWhiteSpaceUnit(u) then Reject else InLast
    case InLast => if IsWhiteSpaceUnit(u) then Reject else InLast
    case Reject => Reject
  }

  function Run(q: NameState, xs: seq<int>): NameState
    decreases |xs|
  {
    if xs == [] then q else Run(Step(q, xs[0]), xs[1..])
  }

  /** Position `i` holds a plain space and no other position holds whitespace. */
  ghost predicate SpaceOnlyAt(xs: seq<int>, i: int)
  {
    && 0 <= i < |xs|
    && xs[i] == 0x20
    && forall j :: 0 <= j < |xs| && j != i ==> !IsWhiteSpaceUnit(xs[j])
  }

  ghost predicate NoWhiteSpace(xs: seq<int>)
  {
    forall j :: 0 <= j < |xs| ==> !IsWhiteSpaceUnit(xs[j])
  }

  lemma RejectIsFinal(xs: seq<int>)
    ensures Run(Reject, xs) == Reject
  {
  }

  /** From `InLast` the automaton accepts exactly the whitespace-free inputs. */
  lemma {:induction false} AcceptsFromInLast(xs: seq<int>)
    ensures Run(InLast, xs) == InLast <==> NoWhiteSpace(xs)
  {
    if xs != [] {
      AcceptsFromInLast(xs[1..]);
      RejectIsFinal(xs[1..]);
      assert forall j :: 1 <= j < |xs| ==> xs[j] == xs[1..][j - 1];
    }
  }

  /** From `AfterSpace` it accepts the non-empty whitespace-free inputs. */
  lemma AcceptsFromAfterSpace(xs: seq<int>)
    ensures Run(AfterSpace, xs) == InLast <==> |xs| > 0 && NoWhiteSpace(xs)
  {
    if xs != [] {
      AcceptsFromInLast(xs[1..]);
      RejectIsFinal(xs[1..]);
      assert forall j :: 1 <= j < |xs| ==> xs[j] == xs[1..][j - 1];
    }
  }

  /** From `InFirst` it accepts the inputs whose only whitespace is one space
      before the last position. */
  lemma {:induction false} AcceptsFromInFirst(xs: seq<int>)
    ensures Run(InFirst, xs) == InLast <==> exists i :: i < |xs| - 1 && SpaceOnlyAt(xs, i)
  {
    if xs != [] {
      var rest := xs[1..];
      assert forall j :: 1 <= j < |xs| ==> xs[j] == rest[j - 1];
      RejectIsFinal(rest);
      if xs[0] == 0x20 {
        AcceptsFromAfterSpace(rest);
        if Run(InFirst, xs) == InLast {
          assert SpaceOnlyAt(xs, 0);
        }
        if exists i :: i < |xs| - 1 && SpaceOnlyAt(xs, i) {
          var i :| i < |xs| - 1 && SpaceOnlyAt(xs, i);
          assert i == 0;
        }
      } else if IsWhiteSpaceUnit(xs[0]) {
        assert forall i :: !SpaceOnlyAt(xs, i);
      } else {
        AcceptsFromInFirst(rest);
        if Run(InFirst, xs) == InLast {
          var k :| k < |rest| - 1 && SpaceOnlyAt(rest, k);
          assert SpaceOnlyAt(xs, k + 1);
        }
        if exists i :: i < |xs| - 1 && SpaceOnlyAt(xs, i) {
          var i :| i < |xs| - 1 && SpaceOnlyAt(xs, i);
          assert SpaceOnlyAt(rest, i - 1);
        }
      }
    }
  }

  /** The automaton accepts exactly the inputs in which one interior position
      holds a plain space and no other position holds whitespace. */
  lemma AcceptsFromStart(xs: seq<int>)
    ensures Run(Start, xs) == InLast <==> exists i :: 0 < i < |xs| - 1 && SpaceOnlyAt(xs, i)
  {
    if xs != [] {
      var rest := xs[1..];
      assert forall j :: 1 <= j < |xs| ==> xs[j] == rest[j - 1];
      RejectIsFinal(rest);
      if IsWhiteSpaceUnit(xs[0]) {
        assert forall i :: 0 < i ==> !SpaceOnlyAt(xs, i);
      } else {
        AcceptsFromInFirst(rest);
        if Run(Start, xs) == InLast {
          var k :| k < |rest| - 1 && SpaceOnlyAt(rest, k);
          assert SpaceOnlyAt(xs, k + 1);
        }
        if exists i :: 0 < i < |xs| - 1 && SpaceOnlyAt(xs, i) {
          var i :| 0 < i < |xs| - 1 && SpaceOnlyAt(xs, i);
          assert SpaceOnlyAt(rest, i - 1);
        }
      }
    }
  }

  lemma {:induction false} RunAppend(q: NameState, a: seq<int>, b: seq<int>)
    ensures Run(q, a + b) == Run(Run(q, a), b)
    decreases |a|
  {
    if a != [] {
      assert (a + b)[0] == a[0];
      assert (a + b)[1..] == a[1..] + b;
      RunAppend(Step(q, a[0]), a[1..], b);
    } else {
      assert a + b == b;
    }
  }

  /** Both code units of a surrogate pair move the automaton as one
      non-whitespace character does. */
  lemma RunCharUnits(q: NameState, c: char)
    ensures Run(q, CharUnits(c)) == Step(q, c as int)
  {
    var us := CharUnits(c);
    if IsBmp(c) {
      assert Run(q, us) == Run(Step(q, us[0]), []);
    } else {
      assert !IsWhiteSpaceUnit(us[0]) && !IsWhiteSpaceUnit(us[1]) && !IsWhiteSpaceUnit(c as int);
      assert us[1..][1..] == [];
      assert Run(q, us) == Run(Step(Step(q, us[0]), us[1]), []);
    }
  }

  /** Running over the code units of a string agrees with running over its characters. */
  lemma {:induction false} RunUnits(q: NameState, s: string)
    ensures Run(q, Units(s)) == Run(q, CodePoints(s))
    decreases |s|
  {
    if s != [] {
      RunAppend(q, CharUnits(s[0]), Units(s[1..]));
      RunCharUnits(q, s[0]);
      RunUnits(Step(q, s[0] as int), s[1..]);
      assert CodePoints(s)[1..] == CodePoints(s[1..]);
    }
  }

  /** The name pattern, stated on characters: one or more non-whitespace
      characters, exactly one plain space, one or more non-whitespace characters. */
  ghost predicate IsFullName(s: string)
  {
    exists i :: 0 < i < |s| - 1 && s[i] == ' '
      && forall j :: 0 <= j < |s| && j != i ==> !IsWhiteSpace(s[j])
  }

  /** `/^\S+ \S+$/.test(s)`, run over the code units of `s`. */
  function MatchesFullName(s: string): (b: bool)
    ensures b <==> IsFullName(s)
  {
    RunUnits(Start, s);
    AcceptsFromStart(CodePoints(s));
    var xs := CodePoints(s);
    assert IsFullName(s) ==> exists i :: 0 < i < |xs| - 1 && SpaceOnlyAt(xs, i) by {
      if IsFullName(s) {
        var i :| 0 < i < |s| - 1 && s[i] == ' '
          && forall j :: 0 <= j < |s| && j != i ==> !IsWhiteSpace(s[j]);
        assert SpaceOnlyAt(xs, i);
      }
    }
    assert (exists i :: 0 < i < |xs| - 1 && SpaceOnlyAt(xs, i)) ==> IsFullName(s) by {
      if exists i :: 0 < i < |xs| - 1 && SpaceOnlyAt(xs, i) {
        var i :| 0 < i < |xs| - 1 && SpaceOnlyAt(xs, i);
        assert s[i] == ' ';
      }
    }
    Run(Start, Units(s)) == InLast
  }

  // ---------------------------------------------------------------------------
  // The phone pattern `^\d{10,}$`

  ghost predicate AllDigitUnits(xs: seq<int>)
  {
    forall i :: 0 <= i < |xs| ==> IsDigitUnit(xs[i])
  }

  /** `^\d{need,}$` over code units: `need` counts the digits still required. */
  function DigitRun(xs: seq<int>, need: nat): (b: bool)
    ensures b <==> |xs| >= need && AllDigitUnits(xs)
    decreases |xs|
  {
    if xs == [] then need == 0
    else
      assert forall i :: 1 <= i < |xs| ==> xs[i] == xs[1..][i - 1];
      IsDigitUnit(xs[0]) && DigitRun(xs[1..], if need > 0 then need - 1 else 0)
  }

  /** The code units of a string are all digits exactly when its characters are. */
  lemma {:induction false} DigitUnits(s: string)
    ensures AllDigitUnits(Units(s)) <==> forall i :: 0 <= i < |s| ==> IsAsciiDigit(s[i])
  {
    if s != [] {
      DigitUnits(s[1..]);
      var us, rest := CharUnits(s[0]), Units(s[1..]);
      assert Units(s) == us + rest;
      assert forall i :: 0 <= i < |rest| ==> rest[i] == (us + rest)[|us| + i];
      assert forall i :: 0 <= i < |us| ==> us[i] == (us + rest)[i];
      assert forall i :: 1 <= i < |s| ==> s[i] == s[1..][i - 1];
      assert AllDigitUnits(us) <==> IsAsciiDigit(s[0]);
      assert AllDigitUnits(us + rest) <==> AllDigitUnits(us) && AllDigitUnits(rest);
    }
  }

  /** The phone pattern, stated on characters: ten or more ASCII digits. */
  ghost predicate IsPhoneNumber(s: string)
  {
    |s| >= 10 && forall i :: 0 <= i < |s| ==> IsAsciiDigit(s[i])
  }

  /** `/^\d{10,}$/.test(s)`, run over the code units of `s`. */
  function MatchesPhoneNumber(s: string): (b: bool)
    ensures b <==> IsPhoneNumber(s)
  {
    DigitUnits(s);
    LengthBounds(s);
    DigitRun(Units(s), 10)
  }
}
