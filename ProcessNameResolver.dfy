/** `ProcessNameResolver`: the display name of a process from the
    configured rules. Regular expressions and `string.Format` are not
    modelled; they are parameters that answer for a pattern or template. */
module ProcessNameResolver {
  import opened Common

  /** `ProcessNameRule`; optional texts and the group index are `None`
      when absent. */
  datatype Rule = Rule(
    processName: string, keywords: seq<string>, ruleType: string,
    pattern: Option<string>, group: Option<int>, format: Option<string>, displayName: Option<string>)

  /** What a regular expression does on the command line: its
      construction throws, it does not match, or it matches with these
      groups (group 0 being the whole match). */
  datatype RegexOutcome = InvalidPattern | NoMatch | Groups(groups: seq<string>)

  /** The two library calls the resolver makes: regex matching, and
      `string.Format` with one argument (`None` when it throws). */
  datatype Library = Library(regex: (string, string) -> RegexOutcome, format: (string, string) -> Option<string>)

  // ---------------------------------------------------------------------
  // Rule selection

  function NameIs(processName: string): Rule -> bool
  {
    (r: Rule) => EqualsIgnoreCase(r.processName, processName)
  }

  /** Some keyword occurs in the command line, ignoring case. */
  function HasMatchingKeyword(commandLine: string): Rule -> bool
  {
    (r: Rule) => |r.keywords| > 0 && exists k :: 0 <= k < |r.keywords| && ContainsIgnoreCase(commandLine, r.keywords[k])
  }

  function IsKeywordless(): Rule -> bool
  {
    (r: Rule) => |r.keywords| == 0
  }

  /** `FindMatchingRule`: among the rules for the process name (ignoring
      case), in configuration order, the first whose keywords match the
      command line, else the first without keywords. */
  function FindMatchingRule(rules: seq<Rule>, processName: string, commandLine: string): Option<Rule>
  {
    var group := Filter(rules, NameIs(processName));
    if group == [] then None
    else
      var withKeywords := FirstWhere(group, HasMatchingKeyword(commandLine));
      if withKeywords.Some? then withKeywords else FirstWhere(group, IsKeywordless())
  }

  // ---------------------------------------------------------------------
  // Extraction

  /** `ExtractWithRegex`; an invalid pattern or a failing format falls back
      to the process name, as the exception handler of `Resolve` does. */
  function ExtractWithRegex(lib: Library, rule: Rule, commandLine: string, processName: string): string
  {
    if IsNullOrWhiteSpace(rule.pattern) then processName
    else match lib.regex(rule.pattern.value, commandLine)
      case InvalidPattern => processName
      case NoMatch => processName
      case Groups(gs) =>
        var groupIndex := if rule.group.Some? then rule.group.value else 1;
        if groupIndex < 0 || groupIndex >= |gs| then processName
        else if !IsNullOrWhiteSpace(rule.format) then
          var formatted := lib.format(rule.format.value, gs[groupIndex]);
          if formatted.Some? then formatted.value else processName
        else gs[groupIndex]
  }

  /** `ExtractDirect`. */
  function ExtractDirect(rule: Rule): string
  {
    if IsNullOrWhiteSpace(rule.displayName) then rule.processName else rule.displayName.value
  }

  /** `Resolve`. */
  function Resolve(lib: Library, rules: seq<Rule>, processName: string, commandLine: string): string
  {
    var matched := FindMatchingRule(rules, processName, commandLine);
    if matched.None? then processName
    else
      var kind := ToLower(matched.value.ruleType);
      if kind == "regex" then ExtractWithRegex(lib, matched.value, commandLine, processName)
      else if kind == "direct" then ExtractDirect(matched.value)
      else processName
  }

  // ---------------------------------------------------------------------
  // Properties

  /** A process without rules for its name keeps its own name. */
  lemma NoRuleKeepsName(lib: Library, rules: seq<Rule>, processName: string, commandLine: string)
    requires forall i :: 0 <= i < |rules| ==> !EqualsIgnoreCase(rules[i].processName, processName)
    ensures FindMatchingRule(rules, processName, commandLine).None?
    ensures Resolve(lib, rules, processName, commandLine) == processName
  {
    FilterMembership(rules, NameIs(processName));
    if Filter(rules, NameIs(processName)) != [] {
      assert Filter(rules, NameIs(processName))[0] in Filter(rules, NameIs(processName));
    }
  }

  /** The rule chosen, stated on the whole rule list: the first rule for
      the name whose keywords match, else the first keyword-less rule for
      the name. */
  lemma RuleSelection(rules: seq<Rule>, processName: string, commandLine: string)
    ensures var byKeyword := FirstWhere(rules, Both(NameIs(processName), HasMatchingKeyword(commandLine)));
      var fallback := FirstWhere(rules, Both(NameIs(processName), IsKeywordless()));
      FindMatchingRule(rules, processName, commandLine) == if byKeyword.Some? then byKeyword else fallback
  {
    var group := Filter(rules, NameIs(processName));
    FirstWhereOfFilter(rules, NameIs(processName), HasMatchingKeyword(commandLine));
    FirstWhereOfFilter(rules, NameIs(processName), IsKeywordless());
    if group == [] {
      FirstWhereIsFirst(group, HasMatchingKeyword(commandLine));
      FirstWhereIsFirst(group, IsKeywordless());
    }
  }

  /** A keyword rule wins over an earlier keyword-less rule; the chosen
      keyword rule is the first matching one in configuration order. */
  lemma KeywordRulesFirst(rules: seq<Rule>, processName: string, commandLine: string, i: nat)
    requires i < |rules| && EqualsIgnoreCase(rules[i].processName, processName)
    requires HasMatchingKeyword(commandLine)(rules[i])
    ensures var m := FindMatchingRule(rules, processName, commandLine);
      m.Some? && HasMatchingKeyword(commandLine)(m.value) && EqualsIgnoreCase(m.value.processName, processName)
      && exists j :: 0 <= j <= i && rules[j] == m.value
  {
    RuleSelection(rules, processName, commandLine);
    var p := Both(NameIs(processName), HasMatchingKeyword(commandLine));
    FirstWhereIsFirst(rules, p);
    assert p(rules[i]);
  }

  /** The rule type compares ignoring case; an unknown type keeps the name. */
  lemma TypeIgnoresCase(lib: Library, rule: Rule, commandLine: string, processName: string)
    requires FindMatchingRule([rule], processName, commandLine) == Some(rule)
    ensures var r := Resolve(lib, [rule], processName, commandLine);
      && (ToLower(rule.ruleType) == "regex" ==> r == ExtractWithRegex(lib, rule, commandLine, processName))
      && (ToLower(rule.ruleType) == "direct" ==> r == ExtractDirect(rule))
      && (ToLower(rule.ruleType) != "regex" && ToLower(rule.ruleType) != "direct" ==> r == processName)
  {
  }

  /** A Direct rule shows its display name, or the rule's process name
      when that is blank. */
  lemma DirectRule(rule: Rule)
    ensures !IsNullOrWhiteSpace(rule.displayName) ==> ExtractDirect(rule) == rule.displayName.value
    ensures IsNullOrWhiteSpace(rule.displayName) ==> ExtractDirect(rule) == rule.processName
  {
  }

  /** A Regex rule keeps the process name for a blank or invalid pattern,
      no match, a group index out of range or a failing format; otherwise
      it shows the captured group (group 1 by default), formatted when a
      template is given. */
  lemma RegexRule(lib: Library, rule: Rule, commandLine: string, processName: string)
    ensures var r := ExtractWithRegex(lib, rule, commandLine, processName);
      && (IsNullOrWhiteSpace(rule.pattern) ==> r == processName)
      && (!IsNullOrWhiteSpace(rule.pattern) ==>
            var outcome := lib.regex(rule.pattern.value, commandLine);
            var idx := if rule.group.Some? then rule.group.value else 1;
            && (!outcome.Groups? ==> r == processName)
            && (outcome.Groups? && !(0 <= idx < |outcome.groups|) ==> r == processName)
            && (outcome.Groups? && 0 <= idx < |outcome.groups| && IsNullOrWhiteSpace(rule.format) ==>
                  r == outcome.groups[idx])
            && (outcome.Groups? && 0 <= idx < |outcome.groups| && !IsNullOrWhiteSpace(rule.format) ==>
                  r == (if lib.format(rule.format.value, outcome.groups[idx]).Some?
                        then lib.format(rule.format.value, outcome.groups[idx]).value else processName)))
  {
  }
}
