/** Which exposure rules match a state (src/exposure/index.ts). */
module Exposure {
  import opened Common
  import opened Glob

  const BLOCKED_PREFIXES := ["system.", "authentication."]

  predicate StartsWith(s: string, prefix: string) {
    |prefix| <= |s| && s[..|prefix|] == prefix
  }

  predicate IsBlockedStateId(id: string) {
    exists i :: 0 <= i < |BLOCKED_PREFIXES| && StartsWith(id, BLOCKED_PREFIXES[i])
  }

  /** What JSON.parse makes of a group's target: a list (of it, the strings), a string, or something that
      has no `includes` or is no JSON at all. */
  datatype Parsed = IdList(ids: seq<string>) | Text(text: string) | Otherwise

  // Of a string, `includes` asks for a part.
  predicate Includes(parsed: Parsed, stateId: string) {
    match parsed
    case IdList(ids) => stateId in ids
    case Text(text) => exists i :: 0 <= i <= |text| && StartsWith(text[i..], stateId)
    case Otherwise => false
  }

  datatype Scope =
    | StateScope
    | AliasScope
    | ChannelScope
    | DeviceScope
    | AdapterScope
    | GroupScope(parsed: Parsed)
    | PatternScope

  datatype ExposureRule = ExposureRule(scope: Scope, target: string)

  /** None when matching throws. */
  function MatchesScope(rule: ExposureRule, stateId: string): Option<bool> {
    match rule.scope
    case StateScope => Some(stateId == rule.target)
    case AliasScope => Some(stateId == rule.target)
    case ChannelScope => Some(stateId == rule.target || StartsWith(stateId, rule.target + "."))
    case DeviceScope => Some(stateId == rule.target || StartsWith(stateId, rule.target + "."))
    case AdapterScope => Some(stateId == rule.target || StartsWith(stateId, rule.target + "."))
    case GroupScope(parsed) => Some(Includes(parsed, stateId))
    case PatternScope => Test(rule.target, stateId)
  }

  function Matching(rules: seq<ExposureRule>, stateId: string): Option<seq<ExposureRule>> {
    if |rules| == 0 then Some([]) else
      var before := Matching(rules[..|rules| - 1], stateId);
      var rule := rules[|rules| - 1];
      var verdict := MatchesScope(rule, stateId);
      if before.None? || verdict.None? then None
      else Some(before.value + if verdict.value then [rule] else [])
  }

  /** All rules of the store are tried, so one pattern that throws makes the whole lookup throw. */
  function MatchingRules(rules: seq<ExposureRule>, stateId: string): Option<seq<ExposureRule>> {
    if IsBlockedStateId(stateId) then Some([]) else Matching(rules, stateId)
  }

  // ---- Properties ----

  ghost predicate Throws(rule: ExposureRule) {
    rule.scope.PatternScope? && TermsOf(rule.target).None?
  }

  /** What a rule covers, told from the text of the ids: the state itself; the target or what lies below it;
      what a list names, or a text contains; what the expression of a pattern accepts. */
  ghost predicate Covers(rule: ExposureRule, stateId: string) {
    match rule.scope
    case StateScope => stateId == rule.target
    case AliasScope => stateId == rule.target
    case ChannelScope => IsAtOrBelow(stateId, rule.target)
    case DeviceScope => IsAtOrBelow(stateId, rule.target)
    case AdapterScope => IsAtOrBelow(stateId, rule.target)
    case GroupScope(IdList(ids)) => exists i :: 0 <= i < |ids| && ids[i] == stateId
    case GroupScope(Text(text)) => exists before, after {:trigger before + stateId + after} :: text == before + stateId + after
    case GroupScope(Otherwise) => false
    case PatternScope => Test(rule.target, stateId) == Some(true)
  }

  ghost predicate IsAtOrBelow(stateId: string, target: string) {
    stateId == target || exists rest {:trigger target + "." + rest} :: stateId == target + "." + rest
  }

  lemma PrefixMeans(s: string, prefix: string)
    ensures StartsWith(s, prefix) <==> exists rest {:trigger prefix + rest} :: s == prefix + rest
  {
    if StartsWith(s, prefix) {
      assert s == prefix + s[|prefix|..];
    }
  }

  lemma BelowMeans(stateId: string, target: string)
    ensures stateId == target || StartsWith(stateId, target + ".") <==> IsAtOrBelow(stateId, target)
  {
    PrefixMeans(stateId, target + ".");
  }

  lemma PartMeans(text: string, part: string)
    ensures Includes(Text(text), part) <==> exists before, after {:trigger before + part + after} :: text == before + part + after
  {
    if i :| 0 <= i <= |text| && StartsWith(text[i..], part) {
      PrefixMeans(text[i..], part);
      var rest :| text[i..] == part + rest;
      assert text == text[..i] + part + rest;
    }
    if before, after {:trigger before + part + after} :| text == before + part + after {
      assert text[|before|..] == part + after;
      PrefixMeans(text[|before|..], part);
    }
  }

  lemma ScopesMean(rule: ExposureRule, stateId: string)
    ensures MatchesScope(rule, stateId) == if Throws(rule) then None else Some(Covers(rule, stateId))
  {
    match rule.scope
    case PatternScope => TestParses(rule.target, stateId);
    case GroupScope(parsed) =>
      if parsed.Text? {
        PartMeans(parsed.text, stateId);
      }
    case _ => BelowMeans(stateId, rule.target);
  }

  /** The rules that cover a state, in their order. */
  ghost function Covering(rules: seq<ExposureRule>, stateId: string): seq<ExposureRule> {
    if |rules| == 0 then []
    else Covering(rules[..|rules| - 1], stateId) + if Covers(rules[|rules| - 1], stateId) then [rules[|rules| - 1]] else []
  }

  lemma {:induction false} MatchingIs(rules: seq<ExposureRule>, stateId: string)
    ensures Matching(rules, stateId).None? <==> exists i :: 0 <= i < |rules| && Throws(rules[i])
    ensures Matching(rules, stateId).Some? ==> Matching(rules, stateId).value == Covering(rules, stateId)
  {
    if |rules| > 0 {
      var init, last := rules[..|rules| - 1], rules[|rules| - 1];
      MatchingIs(init, stateId);
      ScopesMean(last, stateId);
      assert rules == init + [last];
      if i :| 0 <= i < |init| && Throws(init[i]) {
        assert Throws(rules[i]);
      }
    }
  }

  ghost predicate IsBelowBlocked(stateId: string) {
    || (exists rest {:trigger "system." + rest} :: stateId == "system." + rest)
    || (exists rest {:trigger "authentication." + rest} :: stateId == "authentication." + rest)
  }

  lemma BlockedMeans(stateId: string)
    ensures IsBlockedStateId(stateId) <==> IsBelowBlocked(stateId)
  {
    PrefixMeans(stateId, BLOCKED_PREFIXES[0]);
    PrefixMeans(stateId, BLOCKED_PREFIXES[1]);
  }

  /** A state that is not below a blocked prefix gets exactly the rules that cover it, in their order, unless
      some pattern is no valid expression, whether or not that pattern has to do with the state. */
  lemma MatchingRulesAre(rules: seq<ExposureRule>, stateId: string)
    ensures MatchingRules(rules, stateId) ==
      if IsBelowBlocked(stateId) then Some([])
      else if exists i :: 0 <= i < |rules| && Throws(rules[i]) then None
      else Some(Covering(rules, stateId))
  {
    BlockedMeans(stateId);
    MatchingIs(rules, stateId);
  }

  lemma {:induction false} NoStarIsItself(pattern: string, fill: seq<string>)
    requires '*' !in pattern && |fill| == |pattern|
    ensures Filled(pattern, fill) == pattern
    decreases |pattern|
  {
    if |pattern| > 0 {
      assert pattern[0] in pattern && '*' !in pattern[1..];
      NoStarIsItself(pattern[1..], fill[1..]);
    }
  }

  lemma {:induction false} FilledConcat(p: string, q: string, f: seq<string>, g: seq<string>)
    requires |f| == |p| && |g| == |q|
    ensures Filled(p + q, f + g) == Filled(p, f) + Filled(q, g)
    decreases |p|
  {
    if |p| == 0 {
      assert p + q == q && f + g == g;
    } else {
      assert (p + q)[1..] == p[1..] + q && (f + g)[1..] == f[1..] + g;
      FilledConcat(p[1..], q, f[1..], g);
    }
  }

  lemma PlainTargetMeansItself(target: string, id: string)
    requires '*' !in target
    ensures Means(target, id) <==> id == target
  {
    if Means(target, id) {
      var fill :| FillsTo(target, fill, id);
      NoStarIsItself(target, fill);
    }
    var empty := seq(|target|, _ => "");
    NoStarIsItself(target, empty);
    assert id == target ==> FillsTo(target, empty, id);
  }

  lemma DotStarFilled(star: seq<string>)
    requires |star| == 2
    ensures Filled(".*", star) == "." + star[1]
  {
    assert ".*"[1..] == "*" && star[1..] == [star[1]];
    assert Filled("*", [star[1]]) == star[1] + Filled("", []);
  }

  lemma FilledBelow(target: string, f: seq<string>, star: seq<string>)
    requires '*' !in target && |f| == |target| && |star| == 2
    ensures Filled(target + ".*", f + star) == target + ("." + star[1])
  {
    FilledConcat(target, ".*", f, star);
    NoStarIsItself(target, f);
    DotStarFilled(star);
  }

  lemma BelowTargetMeansPrefix(target: string, id: string)
    requires '*' !in target && OneLine(id)
    ensures Means(target + ".*", id) <==> StartsWith(id, target + ".")
  {
    var n := |target|;
    if Means(target + ".*", id) {
      var fill :| FillsTo(target + ".*", fill, id);
      assert fill == fill[..n] + fill[n..];
      FilledBelow(target, fill[..n], fill[n..]);
    }
    if StartsWith(id, target + ".") {
      var f, star := seq(n, _ => ""), ["", id[n + 1..]];
      assert id == target + ("." + id[n + 1..]);
      FilledBelow(target, f, star);
      assert FillsTo(target + ".*", f + star, id);
    }
  }

  /** For a target without wildcards, the channel scope is the union of two patterns: the target itself
      and everything below it. */
  lemma ChannelIsTwoPatterns(target: string, id: string)
    requires '*' !in target && '?' !in target && OneLine(id)
    ensures MatchesScope(ExposureRule(ChannelScope, target), id) == Some(true) <==>
      MatchesScope(ExposureRule(PatternScope, target), id) == Some(true) ||
      MatchesScope(ExposureRule(PatternScope, target + ".*"), id) == Some(true)
  {
    GlobMeansItself(target, id);
    GlobMeansItself(target + ".*", id);
    PlainTargetMeansItself(target, id);
    BelowTargetMeansPrefix(target, id);
  }
}
