/** The three matchers of internal/app/app.go. Regular expressions are a collaborator:
    `compiles(p)` says whether `regexp.Compile(p)` succeeds and `matches(p, s)` whether
    the compiled `p` finds a match anywhere in `s`. Each matcher scans its list in order
    and stops at the first match; only the debug log (not modelled) can see how far it got. */
module Matchers {

  datatype RegexEngine = RegexEngine(compiles: string -> bool, matches: (string, string) -> bool)

  /** Every pattern of the list compiles, so `regexp.MustCompile` does not panic on it. */
  predicate AllCompile(re: RegexEngine, patterns: seq<string>) {
    forall i :: 0 <= i < |patterns| ==> re.compiles(patterns[i])
  }

  /** isLineMatchWithOneRule: a rule that does not compile is skipped (it is only
      logged), the first compiling rule that matches stops the scan. */
  function IsLineMatchWithOneRule(re: RegexEngine, line: string, rules: seq<string>): (r: bool)
    ensures r <==> exists i :: 0 <= i < |rules| && re.compiles(rules[i]) && re.matches(rules[i], line)
    ensures rules == [] ==> !r
  {
    if rules == [] then false
    else if !re.compiles(rules[0]) then IsLineMatchWithOneRule(re, line, rules[1..])
    else if re.matches(rules[0], line) then true
    else
      var r' := IsLineMatchWithOneRule(re, line, rules[1..]);
      assert r' ==> exists i :: 0 <= i < |rules| && re.compiles(rules[i]) && re.matches(rules[i], line)
        by { if r' { var i :| 0 <= i < |rules| - 1 && re.compiles(rules[1..][i]) && re.matches(rules[1..][i], line);
                     assert rules[i + 1] == rules[1..][i]; } }
      r'
  }

  /** The loop shared by isImageIgnored and isContainerIgnored: every pattern is
      compiled with MustCompile (hence the precondition) and the first match wins. */
  function AnyPatternMatches(re: RegexEngine, patterns: seq<string>, s: string): (r: bool)
    requires AllCompile(re, patterns)
    ensures r <==> exists i :: 0 <= i < |patterns| && re.matches(patterns[i], s)
    ensures patterns == [] ==> !r
  {
    if patterns == [] then false
    else if re.matches(patterns[0], s) then true
    else
      var r' := AnyPatternMatches(re, patterns[1..], s);
      assert r' ==> exists i :: 0 <= i < |patterns| && re.matches(patterns[i], s)
        by { if r' { var i :| 0 <= i < |patterns| - 1 && re.matches(patterns[1..][i], s);
                     assert patterns[i + 1] == patterns[1..][i]; } }
      r'
  }

  /** isImageIgnored: some pattern of the image ignore list matches the image. */
  function IsImageIgnored(re: RegexEngine, imagesToIgnore: seq<string>, image: string): (r: bool)
    requires AllCompile(re, imagesToIgnore)
    ensures r <==> exists i :: 0 <= i < |imagesToIgnore| && re.matches(imagesToIgnore[i], image)
  {
    AnyPatternMatches(re, imagesToIgnore, image)
  }

  /** isContainerIgnored: some pattern of the container-name ignore list matches the name. */
  function IsContainerIgnored(re: RegexEngine, containerNameToIgnore: seq<string>, name: string): (r: bool)
    requires AllCompile(re, containerNameToIgnore)
    ensures r <==> exists i :: 0 <= i < |containerNameToIgnore| && re.matches(containerNameToIgnore[i], name)
  {
    AnyPatternMatches(re, containerNameToIgnore, name)
  }

  /** When every rule compiles, skipping invalid rules changes nothing: the rule
      matcher and the MustCompile matchers agree. */
  lemma {:induction false} RuleMatcherAgreesWhenAllCompile(re: RegexEngine, line: string, rules: seq<string>)
    requires AllCompile(re, rules)
    ensures IsLineMatchWithOneRule(re, line, rules) == AnyPatternMatches(re, rules, line)
  {
    if rules != [] {
      RuleMatcherAgreesWhenAllCompile(re, line, rules[1..]);
    }
  }

  /** A rule that does not compile can be removed from the list without changing any answer. */
  lemma {:induction false} InvalidRuleIsInert(re: RegexEngine, line: string, before: seq<string>, bad: string, after: seq<string>)
    requires !re.compiles(bad)
    ensures IsLineMatchWithOneRule(re, line, before + [bad] + after) == IsLineMatchWithOneRule(re, line, before + after)
  {
    if before == [] {
      assert before + [bad] + after == [bad] + after;
      assert before + after == after;
      assert ([bad] + after)[1..] == after;
      assert IsLineMatchWithOneRule(re, line, [bad] + after) == IsLineMatchWithOneRule(re, line, after);
    } else {
      InvalidRuleIsInert(re, line, before[1..], bad, after);
      assert (before + [bad] + after)[1..] == before[1..] + [bad] + after;
      assert (before + after)[1..] == before[1..] + after;
    }
  }
}
