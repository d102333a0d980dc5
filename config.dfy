/** Package settings: the group and template name validator and the
    default value policy. */
module Config {
  import Policy

  /** A character of the regular-expression class \w. */
  predicate WordChar(c: char) {
    'a' <= c <= 'z' || 'A' <= c <= 'Z' || '0' <= c <= '9' || c == '_'
  }

  /** A character allowed after the first: a letter, a digit or '-'. */
  predicate TailChar(c: char) {
    'a' <= c <= 'z' || 'A' <= c <= 'Z' || '0' <= c <= '9' || c == '-'
  }

  /** The names the pattern ^\w[A-Za-z0-9\-]*$ describes. */
  predicate ValidName(s: string) {
    |s| >= 1 && WordChar(s[0]) && forall i :: 1 <= i < |s| ==> TailChar(s[i])
  }

  /** The states of a left-to-right matcher for the name pattern. */
  datatype MatchState = Start | Accepting | Rejected

  function Step(st: MatchState, c: char): MatchState {
    match st
    case Start => if WordChar(c) then Accepting else Rejected
    case Accepting => if TailChar(c) then Accepting else Rejected
    case Rejected => Rejected
  }

  /** The matcher's state after reading `s`. */
  function Run(s: string): MatchState {
    if |s| == 0 then Start else Step(Run(s[..|s| - 1]), s[|s| - 1])
  }

  /** The name pattern matches `s`: the matcher ends accepting, which is
      exactly when `s` is a valid name. */
  function NameMatches(s: string): (m: bool)
    ensures m <==> ValidName(s)
  {
    RunSpec(s);
    Run(s) == Accepting
  }

  /** The matcher is in each state exactly when the input is what that
      state stands for. */
  lemma {:induction false} RunSpec(s: string)
    ensures Run(s) == Start <==> |s| == 0
    ensures Run(s) == Accepting <==> ValidName(s)
  {
    if |s| > 0 {
      var t, c := s[..|s| - 1], s[|s| - 1];
      RunSpec(t);
      assert forall i :: 0 <= i < |t| ==> t[i] == s[i];
      if |t| > 0 {
        assert ValidName(s) <==> ValidName(t) && TailChar(c);
      }
    }
  }

  /** The empty name is rejected. */
  lemma EmptyNameRejected()
    ensures !NameMatches("")
  {
  }

  /** The names the group test accepts and rejects. */
  lemma NameExamples()
    ensures NameMatches("1234") && NameMatches("a-template")
    ensures !NameMatches("-1234")
  {
  }

  /** The repository test's invalid name is rejected, and a lone underscore,
      a word character, is a name by the pattern itself. */
  lemma PatternExamples()
    ensures !NameMatches("!!!")
    ensures NameMatches("_")
  {
  }

  /** The value-policy settings of a group's configuration. */
  datatype ValuePolicyData = ValuePolicyData(
    minSize: int, maxSize: int,
    scaleUpValue: real, scaleUpBy: int,
    scaleDownValue: real, scaleDownBy: int,
    warmUpSeconds: int)

  const DefaultValuePolicy := ValuePolicyData(1, 10, 0.8, 2, 0.2, 1, 10)

  /** The default settings are a policy the constructor accepts, with a
      size range that is not empty. */
  lemma DefaultValuePolicyValid()
    ensures DefaultValuePolicy.minSize <= DefaultValuePolicy.maxSize
    ensures DefaultValuePolicy.scaleDownValue < DefaultValuePolicy.scaleUpValue
    ensures Policy.NewValuePolicy(DefaultValuePolicy.scaleUpValue, DefaultValuePolicy.scaleUpBy,
                                  DefaultValuePolicy.scaleDownValue, DefaultValuePolicy.scaleDownBy).Success?
  {
  }
}
