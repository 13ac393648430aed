// Deny/allow rules for MCP tool calls: the text matcher of the gateway against
// structured rules.
module Permissions {
  import opened Basics

  // Argument values are given as they print.
  type Args = map<string, string>

  // ----- The text matcher -----

  // strings.Index for one character.
  function IndexOf(s: string, c: char): (i: Option<nat>)
    ensures i.Some? ==> i.value < |s| && s[i.value] == c && c !in s[..i.value]
    ensures i.None? ==> c !in s
  {
    if s == "" then None
    else if s[0] == c then Some(0)
    else match IndexOf(s[1..], c)
      case Some(i) => (assert s[..i + 1] == [s[0]] + s[1..][..i]; Some(i + 1))
      case None => (assert s == [s[0]] + s[1..]; None)
  }

  predicate HasPrefix(s: string, prefix: string) { |prefix| <= |s| && s[..|prefix|] == prefix }

  predicate MatchPattern(value: string, pattern: string) {
    if pattern != "" && pattern[|pattern| - 1] == '*' then HasPrefix(value, pattern[..|pattern| - 1])
    else value == pattern
  }

  predicate MatchRule(tool: string, args: Args, rule: string) {
    var colon := IndexOf(rule, ':');
    if colon.None? then rule == tool
    else if rule[..colon.value] != tool then false
    else
      var constraint := rule[colon.value + 1..];
      var eq := IndexOf(constraint, '=');
      if eq.None? then false
      else
        var name, pattern := constraint[..eq.value], constraint[eq.value + 1..];
        if name == "*" then exists a :: a in args && MatchPattern(args[a], pattern)
        else name in args && MatchPattern(args[name], pattern)
  }

  predicate MatchesAnyRule(tool: string, args: Args, rules: seq<string>) {
    if rules == [] then false else MatchRule(tool, args, rules[0]) || MatchesAnyRule(tool, args, rules[1..])
  }

  // `mode` is free text; only "deny" and "allow" mean anything.
  datatype Mode = Deny | Allow | OtherMode(text: string)

  datatype ServerPolicy = ServerPolicy(mode: Mode, rules: seq<string>)

  predicate Check(policy: Option<ServerPolicy>, tool: string, args: Args) {
    match policy
    case None => true
    case Some(p) =>
      match p.mode
      case Deny => !MatchesAnyRule(tool, args, p.rules)
      case Allow => MatchesAnyRule(tool, args, p.rules)
      case OtherMode(_) => true
  }

  // ----- Structured rules -----

  // What one glob means: any text, or exactly this text.
  datatype Glob = Exactly(text: string) | StartingWith(prefix: string)

  datatype Rule =
    | AnyCall(tool: string)
    | ArgRule(tool: string, arg: string, glob: Glob)
    | AnyArgRule(tool: string, glob: Glob)

  ghost predicate Covers(g: Glob, value: string) {
    match g
    case Exactly(text) => value == text
    case StartingWith(prefix) => exists rest :: value == prefix + rest
  }

  ghost predicate Applies(r: Rule, tool: string, args: Args) {
    r.tool == tool
    && match r
       case AnyCall(_) => true
       case ArgRule(_, arg, g) => arg in args && Covers(g, args[arg])
       case AnyArgRule(_, g) => exists a :: a in args && Covers(g, args[a])
  }

  function PrintGlob(g: Glob): string {
    match g
    case Exactly(text) => text
    case StartingWith(prefix) => prefix + "*"
  }

  function Print(r: Rule): string {
    match r
    case AnyCall(tool) => tool
    case ArgRule(tool, arg, g) => tool + ":" + arg + "=" + PrintGlob(g)
    case AnyArgRule(tool, g) => tool + ":*=" + PrintGlob(g)
  }

  // The rules a text can express: the separators, and the wildcard, must not occur
  // where they would be read as such.
  predicate Printable(r: Rule) {
    ':' !in r.tool
    && (r.ArgRule? ==> '=' !in r.arg && r.arg != "*")
    && ((r.ArgRule? || r.AnyArgRule?) && r.glob.Exactly? ==> !EndsWithStar(r.glob.text))
  }

  predicate EndsWithStar(s: string) { s != "" && s[|s| - 1] == '*' }

  function ParseGlob(s: string): Glob {
    if EndsWithStar(s) then StartingWith(s[..|s| - 1]) else Exactly(s)
  }

  // None: a constraint without '='.
  function Parse(rule: string): Option<Rule> {
    match IndexOf(rule, ':')
    case None => Some(AnyCall(rule))
    case Some(i) =>
      var tool, constraint := rule[..i], rule[i + 1..];
      match IndexOf(constraint, '=')
      case None => None
      case Some(j) =>
        var glob := ParseGlob(constraint[j + 1..]);
        Some(if constraint[..j] == "*" then AnyArgRule(tool, glob) else ArgRule(tool, constraint[..j], glob))
  }

  // ----- The matcher agrees with the structured meaning -----

  lemma GlobMeaning(value: string, pattern: string)
    ensures MatchPattern(value, pattern) <==> Covers(ParseGlob(pattern), value)
  {
    if EndsWithStar(pattern) {
      var prefix := pattern[..|pattern| - 1];
      if HasPrefix(value, prefix) {
        assert value == prefix + value[|prefix|..];
      }
    }
  }

  // Every rule text means what it parses to; texts that do not parse match nothing.
  lemma TextMeaning(tool: string, args: Args, rule: string)
    ensures MatchRule(tool, args, rule) <==> Parse(rule).Some? && Applies(Parse(rule).value, tool, args)
  {
    forall v, p
      ensures MatchPattern(v, p) <==> Covers(ParseGlob(p), v)
    {
      GlobMeaning(v, p);
    }
  }

  lemma IndexOfSplit(a: string, c: char, b: string)
    requires c !in a
    ensures IndexOf(a + [c] + b, c) == Some(|a|)
    decreases |a|
  {
    var s := a + [c] + b;
    if a == "" {
      assert s[0] == c;
    } else {
      assert s[1..] == a[1..] + [c] + b;
      IndexOfSplit(a[1..], c, b);
    }
  }

  lemma GlobRoundTrip(g: Glob)
    requires g.Exactly? ==> !EndsWithStar(g.text)
    ensures ParseGlob(PrintGlob(g)) == g
  {
    if g.StartingWith? {
      assert (g.prefix + "*")[..|g.prefix|] == g.prefix;
    }
  }

  // The three parts of a constrained rule come back from its text.
  lemma ParseParts(tool: string, arg: string, pattern: string)
    requires ':' !in tool && '=' !in arg
    ensures Parse(tool + [':'] + (arg + ['='] + pattern))
         == Some(if arg == "*" then AnyArgRule(tool, ParseGlob(pattern)) else ArgRule(tool, arg, ParseGlob(pattern)))
  {
    var tail := arg + ['='] + pattern;
    var rule := tool + [':'] + tail;
    IndexOfSplit(tool, ':', tail);
    assert rule[..|tool|] == tool;
    assert rule[|tool| + 1..] == tail;
    IndexOfSplit(arg, '=', pattern);
    assert tail[..|arg|] == arg;
    assert tail[|arg| + 1..] == pattern;
  }

  lemma JoinConstraint(tool: string, arg: string, pattern: string)
    ensures tool + ":" + arg + "=" + pattern == tool + [':'] + (arg + ['='] + pattern)
    ensures arg == "*" ==> tool + ":*=" + pattern == tool + [':'] + (arg + ['='] + pattern)
  {
    if arg == "*" {
      assert ":*=" == [':'] + arg + ['='];
    }
  }

  // Printing and parsing are inverse on printable rules ...
  lemma ParsePrint(r: Rule)
    requires Printable(r)
    ensures Parse(Print(r)) == Some(r)
  {
    match r
    case AnyCall(tool) => assert IndexOf(tool, ':').None?;
    case ArgRule(tool, arg, g) =>
      GlobRoundTrip(g);
      JoinConstraint(tool, arg, PrintGlob(g));
      ParseParts(tool, arg, PrintGlob(g));
    case AnyArgRule(tool, g) =>
      GlobRoundTrip(g);
      JoinConstraint(tool, "*", PrintGlob(g));
      NoEqualsInStar();
      ParseParts(tool, "*", PrintGlob(g));
  }

  lemma NoEqualsInStar()
    ensures '=' !in "*"
  {
  }

  lemma GlobTextRoundTrip(s: string)
    ensures PrintGlob(ParseGlob(s)) == s && (ParseGlob(s).Exactly? ==> !EndsWithStar(ParseGlob(s).text))
  {
    if EndsWithStar(s) {
      assert s == s[..|s| - 1] + "*";
    }
  }

  lemma SplitAt(s: string, i: nat)
    requires i < |s|
    ensures s == s[..i] + [s[i]] + s[i + 1..]
  {
  }

  // ... and every text that parses is the printed form of a printable rule.
  lemma PrintParse(rule: string)
    requires Parse(rule).Some?
    ensures Printable(Parse(rule).value) && Print(Parse(rule).value) == rule
  {
    var colon := IndexOf(rule, ':');
    if colon.Some? {
      var tool, constraint := rule[..colon.value], rule[colon.value + 1..];
      SplitAt(rule, colon.value);
      var j := IndexOf(constraint, '=').value;
      SplitAt(constraint, j);
      GlobTextRoundTrip(constraint[j + 1..]);
      JoinConstraint(tool, constraint[..j], constraint[j + 1..]);
    }
  }

  // So the text matcher, run on the printed form of a rule, decides that rule.
  lemma PrintedRuleMatches(r: Rule, tool: string, args: Args)
    requires Printable(r)
    ensures MatchRule(tool, args, Print(r)) <==> Applies(r, tool, args)
  {
    ParsePrint(r);
    TextMeaning(tool, args, Print(r));
  }

  // A tool can be named by a rule exactly when its name has no colon: no rule of
  // any form ever matches a call to the others.
  lemma ToolIsNameableIff(tool: string, args: Args)
    ensures (exists rule :: MatchRule(tool, args, rule)) <==> ':' !in tool
  {
    if ':' !in tool {
      PrintedRuleMatches(AnyCall(tool), tool, args);
    } else {
      forall rule
        ensures !MatchRule(tool, args, rule)
      {
        TextMeaning(tool, args, rule);
        if Parse(rule).Some? {
          PrintParse(rule);
        }
      }
    }
  }

  // ----- Policies -----

  lemma {:induction false} MatchesAnyMeaning(tool: string, args: Args, rules: seq<string>)
    ensures MatchesAnyRule(tool, args, rules) <==> exists rule :: rule in rules && MatchRule(tool, args, rule)
  {
    if rules != [] {
      MatchesAnyMeaning(tool, args, rules[1..]);
      assert rules == [rules[0]] + rules[1..];
    }
  }

  // Over the same rules deny and allow are complements; adding rules only takes
  // from a deny policy and only adds to an allow policy; order and repetition of
  // rules do not matter.
  lemma PoliciesAreMonotone(few: seq<string>, many: seq<string>, tool: string, args: Args)
    requires forall rule :: rule in few ==> rule in many
    ensures Check(Some(ServerPolicy(Deny, few)), tool, args) <==> !Check(Some(ServerPolicy(Allow, few)), tool, args)
    ensures Check(Some(ServerPolicy(Deny, many)), tool, args) ==> Check(Some(ServerPolicy(Deny, few)), tool, args)
    ensures Check(Some(ServerPolicy(Allow, few)), tool, args) ==> Check(Some(ServerPolicy(Allow, many)), tool, args)
    ensures (forall rule :: rule in many ==> rule in few) ==>
              forall m :: Check(Some(ServerPolicy(m, few)), tool, args) == Check(Some(ServerPolicy(m, many)), tool, args)
  {
    MatchesAnyMeaning(tool, args, few);
    MatchesAnyMeaning(tool, args, many);
  }

  // No policy, and a policy in no known mode, allow every call.
  lemma OthersAllowAll(tool: string, args: Args, text: string, rules: seq<string>)
    ensures Check(None, tool, args)
    ensures Check(Some(ServerPolicy(OtherMode(text), rules)), tool, args)
  {
  }

  // A policy of printed rules is decided by the structured rules.
  lemma PolicyMeaning(rules: seq<Rule>, texts: seq<string>, tool: string, args: Args)
    requires |texts| == |rules| && forall i :: 0 <= i < |rules| ==> Printable(rules[i]) && texts[i] == Print(rules[i])
    ensures Check(Some(ServerPolicy(Deny, texts)), tool, args)
            <==> !exists i :: 0 <= i < |rules| && Applies(rules[i], tool, args)
    ensures Check(Some(ServerPolicy(Allow, texts)), tool, args)
            <==> exists i :: 0 <= i < |rules| && Applies(rules[i], tool, args)
  {
    MatchesAnyMeaning(tool, args, texts);
    forall i | 0 <= i < |rules|
      ensures MatchRule(tool, args, texts[i]) <==> Applies(rules[i], tool, args)
    {
      PrintedRuleMatches(rules[i], tool, args);
    }
  }
}
