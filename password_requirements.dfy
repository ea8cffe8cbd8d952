/** The four password rules shown under the password field, each with its
    test; the list renders one row per rule, marked met or not. */
module PasswordRequirements {
  import opened Text

  datatype Rule = Length | Uppercase | Digit | Special

  /** The rules in display order. */
  const Rules: seq<Rule> := [Length, Uppercase, Digit, Special]

  function Key(r: Rule): string {
    match r
    case Length => "length"
    case Uppercase => "uppercase"
    case Digit => "digit"
    case Special => "special"
  }

  function Label(r: Rule): string {
    match r
    case Length => "At least 6 characters"
    case Uppercase => "One uppercase letter"
    case Digit => "One digit"
    case Special => "One special character"
  }

  /** A character outside `[a-zA-Z0-9]`. */
  predicate IsSpecial(c: char) {
    !IsAsciiUpper(c) && !IsAsciiLower(c) && !IsAsciiDigit(c)
  }

  /** `regex.test(p)` for a one-character class: scans for a matching
      character from the left. */
  predicate Matches(p: string, charClass: char -> bool)
    ensures Matches(p, charClass) <==> exists i :: 0 <= i < |p| && charClass(p[i])
  {
    if p == [] then false else charClass(p[0]) || Matches(p[1..], charClass)
  }

  /** Each rule's `test`. */
  predicate Test(r: Rule, p: string)
    ensures p == "" ==> !Test(r, p)
  {
    match r
    case Length => |p| >= 6
    case Uppercase => Matches(p, IsAsciiUpper)
    case Digit => Matches(p, IsAsciiDigit)
    case Special => Matches(p, IsSpecial)
  }

  /** The rules as the source states them: a length bound and three
      "some character of this class" checks. */
  lemma RulesMeaning(p: string)
    ensures Test(Length, p) <==> |p| >= 6
    ensures Test(Uppercase, p) <==> exists i :: 0 <= i < |p| && 'A' <= p[i] <= 'Z'
    ensures Test(Digit, p) <==> exists i :: 0 <= i < |p| && '0' <= p[i] <= '9'
    ensures Test(Special, p) <==> exists i :: 0 <= i < |p| && !('a' <= p[i] <= 'z' || 'A' <= p[i] <= 'Z' || '0' <= p[i] <= '9')
  {
  }

  /** Typing more characters never un-meets a rule. */
  lemma RulesSurviveAppending(r: Rule, p: string, more: string)
    requires Test(r, p)
    ensures Test(r, p + more)
  {
    if r != Length {
      var charClass := match r case Uppercase => IsAsciiUpper case Digit => IsAsciiDigit case _ => IsSpecial;
      var i :| 0 <= i < |p| && charClass(p[i]);
      assert (p + more)[i] == p[i];
    }
  }

  datatype RuleRow = RuleRow(key: string, caption: string, met: bool)

  /** `PasswordRequirements`: one row per rule, in order. */
  function Render(password: string): (rows: seq<RuleRow>)
    ensures |rows| == |Rules| == 4
    ensures forall i :: 0 <= i < |rows| ==>
      rows[i].key == Key(Rules[i]) && rows[i].caption == Label(Rules[i]) && (rows[i].met <==> Test(Rules[i], password))
  {
    seq(|Rules|, i requires 0 <= i < |Rules| => RuleRow(Key(Rules[i]), Label(Rules[i]), Test(Rules[i], password)))
  }
}
