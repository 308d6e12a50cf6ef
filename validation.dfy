/** Field validation shared by the forms: each validator runs its checks in order and
    reports the rule of the first one that fails. */
module Validation {
  import opened Text

  /** The message a validator shows, by the validation rule it names. */
  datatype Rule =
    | Required
    | MinLength(min: nat)
    | EmailFormat
    | Numeric
    | DateFormat
    | AfterToday
    | IntegerFormat
    | MinValue(least: int)
    | InvalidSelection

  /** `undefined` (valid) or the failed rule. */
  datatype Verdict = Valid | Invalid(rule: Rule)

  datatype Check = Check(passes: bool, rule: Rule)

  /** The guard chain `if (!c1) return r1; if (!c2) return r2; ...; return undefined`. */
  function FirstFailure(checks: seq<Check>): (r: Verdict)
    ensures r == Valid <==> forall i | 0 <= i < |checks| :: checks[i].passes
    ensures r.Invalid? ==> exists i | 0 <= i < |checks| ::
              !checks[i].passes && checks[i].rule == r.rule &&
              forall j | 0 <= j < i :: checks[j].passes
  {
    if checks == [] then Valid
    else if !checks[0].passes then Invalid(checks[0].rule)
    else
      var rest := FirstFailure(checks[1..]);
      assert forall i | 1 <= i < |checks| :: checks[i] == checks[1..][i - 1];
      rest
  }

  // ---------------------------------------------------------------------------
  // The e-mail pattern /^[^\s@]+@[^\s@]+\.[^\s@]+$/

  /** One or more characters of the class `[^\s@]`. */
  predicate FreeOfAtAndSpace(t: string) {
    forall i | 0 <= i < |t| :: !IsWhitespace(t[i]) && t[i] != '@'
  }

  /** The pattern as written: `local@label.rest`, three nonempty runs of `[^\s@]`,
      the `@` at `a` and the `.` at `k`. */
  ghost predicate MatchesEmailPattern(s: string) {
    exists a: nat, k: nat | a < k < |s| ::
      0 < a && a + 1 < k && k + 1 < |s| && s[a] == '@' && s[k] == '.' &&
      FreeOfAtAndSpace(s[..a]) && FreeOfAtAndSpace(s[a + 1..k]) && FreeOfAtAndSpace(s[k + 1..])
  }

  /** The same language described structurally: no white space, exactly one `@`, which is
      not the first character, and a `.` in the domain that is neither its first nor its last character. */
  predicate IsEmailAddress(s: string) {
    (forall i | 0 <= i < |s| :: !IsWhitespace(s[i])) &&
    exists a | 0 < a < |s| ::
      s[a] == '@' && (forall i | 0 <= i < |s| && i != a :: s[i] != '@') &&
      exists k | a + 1 < k < |s| - 1 :: s[k] == '.'
  }

  lemma PatternGivesAddress(s: string, a: nat, k: nat)
    requires a < k < |s| && 0 < a && a + 1 < k && k + 1 < |s| && s[a] == '@' && s[k] == '.'
    requires FreeOfAtAndSpace(s[..a]) && FreeOfAtAndSpace(s[a + 1..k]) && FreeOfAtAndSpace(s[k + 1..])
    ensures IsEmailAddress(s)
  {
    forall i | 0 <= i < |s| && i != a && i != k
      ensures !IsWhitespace(s[i]) && s[i] != '@'
    {
      if i < a {
        assert s[i] == s[..a][i];
      } else if i < k {
        assert s[i] == s[a + 1..k][i - a - 1];
      } else {
        assert s[i] == s[k + 1..][i - k - 1];
      }
    }
    assert !IsWhitespace(s[a]) && !IsWhitespace(s[k]);
  }

  lemma AddressGivesPattern(s: string, a: nat, k: nat)
    requires forall i | 0 <= i < |s| :: !IsWhitespace(s[i])
    requires 0 < a < |s| && s[a] == '@' && forall i | 0 <= i < |s| && i != a :: s[i] != '@'
    requires a + 1 < k < |s| - 1 && s[k] == '.'
    ensures MatchesEmailPattern(s)
  {
    assert FreeOfAtAndSpace(s[..a]);
    assert FreeOfAtAndSpace(s[a + 1..k]);
    assert FreeOfAtAndSpace(s[k + 1..]);
  }

  /** The structural description and the regular expression accept the same strings. */
  lemma EmailPatternIff(s: string)
    ensures MatchesEmailPattern(s) <==> IsEmailAddress(s)
  {
    if MatchesEmailPattern(s) {
      var a: nat, k: nat :| a < k < |s| &&
        0 < a && a + 1 < k && k + 1 < |s| && s[a] == '@' && s[k] == '.' &&
        FreeOfAtAndSpace(s[..a]) && FreeOfAtAndSpace(s[a + 1..k]) && FreeOfAtAndSpace(s[k + 1..]);
      PatternGivesAddress(s, a, k);
    }
    if IsEmailAddress(s) {
      var a :| 0 < a < |s| && s[a] == '@' && (forall i | 0 <= i < |s| && i != a :: s[i] != '@') &&
        exists k | a + 1 < k < |s| - 1 :: s[k] == '.';
      var k :| a + 1 < k < |s| - 1 && s[k] == '.';
      AddressGivesPattern(s, a, k);
    }
  }

  /** The e-mail validator of the user and loan forms: empty is `required`, a string the
      pattern rejects is `email`. */
  function ValidateEmail(value: string): (r: Verdict)
    ensures r == Invalid(Required) <==> value == ""
    ensures r == Valid <==> MatchesEmailPattern(value)
    ensures r == Valid || r == Invalid(Required) || r == Invalid(EmailFormat)
  {
    EmailPatternIff(value);
    assert IsEmailAddress(value) ==> value != "";
    var checks := [Check(value != "", Required), Check(IsEmailAddress(value), EmailFormat)];
    assert |checks| == 2 && checks[0].passes == (value != "") && checks[1].passes == IsEmailAddress(value);
    FirstFailure(checks)
  }
}
