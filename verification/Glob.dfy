/** The glob compiler of src/exposure/index.ts and the regular expressions it writes. */
module Glob {
  import opened Common

  // ---- The compiler: two replacements over the text ----

  predicate IsSpecial(c: char) {
    c in {'.', '+', '^', '$', '{', '}', '(', ')', '|', '[', ']', '\\'}
  }

  function EscapeSpecials(s: string): string {
    if |s| == 0 then "" else (if IsSpecial(s[0]) then ['\\', s[0]] else [s[0]]) + EscapeSpecials(s[1..])
  }

  function StarsToDotStars(s: string): string {
    if |s| == 0 then "" else (if s[0] == '*' then ['.', '*'] else [s[0]]) + StarsToDotStars(s[1..])
  }

  function GlobToRegExp(pattern: string): string {
    "^" + StarsToDotStars(EscapeSpecials(pattern)) + "$"
  }

  // ---- Regular expressions: the part of ECMAScript's syntax the compiler can write ----

  datatype Atom = Literal(c: char) | Dot

  datatype Quantifier = One | Optional | Star | Plus

  datatype Term = Term(atom: Atom, quantifier: Quantifier)

  type Regex = seq<Term>

  // The quantifier at the front of the text and its length; a '?' after it only makes it lazy.
  function QuantifierAt(s: string): (q: (Quantifier, nat))
    ensures q.1 <= |s|
  {
    if |s| == 0 || s[0] !in {'*', '+', '?'} then (One, 0)
    else (if s[0] == '*' then Star else if s[0] == '+' then Plus else Optional, if |s| > 1 && s[1] == '?' then 2 else 1)
  }

  // The terms between '^' and '$'; None is a syntax error, or syntax outside this part.
  function ParseTerms(s: string): Option<Regex>
    decreases |s|, 0
  {
    if |s| == 0 then Some([])
    else if s[0] == '\\' then (if |s| > 1 && IsSpecial(s[1]) then ParseQuantified(Literal(s[1]), s[2..]) else None)
    else if s[0] == '.' then ParseQuantified(Dot, s[1..])
    else if IsSpecial(s[0]) || s[0] in {'*', '?'} then None
    else ParseQuantified(Literal(s[0]), s[1..])
  }

  function ParseQuantified(atom: Atom, s: string): Option<Regex>
    decreases |s|, 1
  {
    var (quantifier, length) := QuantifierAt(s);
    var rest := ParseTerms(s[length..]);
    if rest.None? then None else Some([Term(atom, quantifier)] + rest.value)
  }

  function Compile(source: string): Option<Regex>
    requires |source| >= 2 && source[0] == '^' && source[|source| - 1] == '$'
  {
    ParseTerms(source[1..|source| - 1])
  }

  predicate IsLineTerminator(c: char) {
    c == '\n' || c == '\r' || c == '\U{2028}' || c == '\U{2029}'
  }

  predicate AtomAccepts(atom: Atom, c: char) {
    match atom
    case Literal(l) => l == c
    case Dot => !IsLineTerminator(c)
  }

  // The language of a regular expression anchored at both ends.
  predicate Accepts(regex: Regex, s: string)
    decreases |regex|, |s|, 1
  {
    if |regex| == 0 then s == "" else
      match regex[0].quantifier
      case One => TakesOne(regex, regex[1..], s)
      case Optional => Accepts(regex[1..], s) || TakesOne(regex, regex[1..], s)
      case Star => Accepts(regex[1..], s) || TakesMore(regex, s)
      case Plus => TakesOne(regex, regex[1..], s) || TakesMore(regex, s)
  }

  predicate TakesOne(regex: Regex, rest: Regex, s: string)
    requires |rest| < |regex|
    decreases |regex|, |s|, 0
  {
    |s| > 0 && AtomAccepts(regex[0].atom, s[0]) && Accepts(rest, s[1..])
  }

  predicate TakesMore(regex: Regex, s: string)
    requires |regex| > 0
    decreases |regex|, |s|, 0
  {
    |s| > 0 && AtomAccepts(regex[0].atom, s[0]) && Accepts(regex, s[1..])
  }

  /** What `globToRegExp(pattern).test(id)` gives; None when building the expression throws. */
  function Test(pattern: string, id: string): Option<bool> {
    var regex := Compile(GlobToRegExp(pattern));
    if regex.None? then None else Some(Accepts(regex.value, id))
  }

  // ---- The meaning of a glob: '*' stands for any text on one line, all else for itself ----

  predicate OneLine(s: string) {
    forall i :: 0 <= i < |s| ==> s[i] !in ['\n', '\r', '\U{2028}', '\U{2029}']
  }

  function Filled(pattern: string, fill: seq<string>): string
    requires |fill| == |pattern|
  {
    if |pattern| == 0 then "" else (if pattern[0] == '*' then fill[0] else [pattern[0]]) + Filled(pattern[1..], fill[1..])
  }

  ghost predicate Means(pattern: string, id: string) {
    exists fill: seq<string> :: FillsTo(pattern, fill, id)
  }

  ghost predicate FillsTo(pattern: string, fill: seq<string>, id: string) {
    |fill| == |pattern| && (forall i :: 0 <= i < |fill| ==> OneLine(fill[i])) && Filled(pattern, fill) == id
  }

  // ---- The compiled text parses back to the pattern ----

  // The parse told from the pattern: '?' still acts as a quantifier.
  function TermsOf(pattern: string): Option<Regex>
    decreases |pattern|
  {
    if |pattern| == 0 then Some([])
    else if pattern[0] == '?' then None
    else
      var lazyStar := pattern[0] == '*' && |pattern| > 1 && pattern[1] == '?';
      var marks := if pattern[0] == '*' then (if lazyStar then 1 else 0) else QuestionMarks(pattern[1..]);
      var rest := TermsOf(pattern[1 + marks..]);
      var term := if pattern[0] == '*' then Term(Dot, Star)
                  else Term(Literal(pattern[0]), if marks > 0 then Optional else One);
      if rest.None? then None else Some([term] + rest.value)
  }

  // How many '?' a literal takes as its quantifier: one, or two for the lazy form.
  function QuestionMarks(s: string): (n: nat)
    ensures n <= |s| && n <= 2
  {
    if |s| == 0 || s[0] != '?' then 0 else if |s| > 1 && s[1] == '?' then 2 else 1
  }

  function Body(pattern: string): string {
    StarsToDotStars(EscapeSpecials(pattern))
  }

  lemma BodyOfFirst(pattern: string)
    requires |pattern| > 0
    ensures Body(pattern) == (if pattern[0] == '*' then ['.', '*'] else if IsSpecial(pattern[0]) then ['\\', pattern[0]] else [pattern[0]])
                             + Body(pattern[1..])
  {
    var rest := EscapeSpecials(pattern[1..]);
    if IsSpecial(pattern[0]) {
      assert EscapeSpecials(pattern) == ['\\'] + ([pattern[0]] + rest);
      assert (['\\'] + ([pattern[0]] + rest))[1..] == [pattern[0]] + rest;
      assert ([pattern[0]] + rest)[1..] == rest;
      assert StarsToDotStars([pattern[0]] + rest) == [pattern[0]] + StarsToDotStars(rest);
    } else {
      assert EscapeSpecials(pattern)[1..] == rest;
    }
  }

  lemma BodyStart(pattern: string)
    ensures |pattern| == 0 ==> Body(pattern) == ""
    ensures |pattern| > 0 ==> |Body(pattern)| > 0 && Body(pattern)[0] !in {'*', '+'}
    ensures |pattern| > 0 ==> (Body(pattern)[0] == '?' <==> pattern[0] == '?')
    ensures |pattern| > 0 && pattern[0] == '?' ==> Body(pattern) == "?" + Body(pattern[1..])
  {
    if |pattern| > 0 {
      BodyOfFirst(pattern);
    }
  }

  // A '?' is copied, so it is still there to quantify what stands before it.
  lemma MarksSurvive(pattern: string)
    ensures QuestionMarks(Body(pattern)) == QuestionMarks(pattern)
    ensures Body(pattern)[QuestionMarks(pattern)..] == Body(pattern[QuestionMarks(pattern)..])
    ensures QuantifierAt(Body(pattern)) == (if QuestionMarks(pattern) > 0 then Optional else One, QuestionMarks(pattern))
  {
    BodyStart(pattern);
    if |pattern| > 0 && pattern[0] == '?' {
      BodyStart(pattern[1..]);
      if |pattern| > 1 && pattern[1] == '?' {
        assert pattern[1..][1..] == pattern[2..];
        assert Body(pattern) == "?" + ("?" + Body(pattern[2..]));
        assert Body(pattern)[2..] == Body(pattern[2..]);
      } else {
        assert Body(pattern)[1..] == Body(pattern[1..]);
        assert |pattern| > 1 ==> Body(pattern)[1] == Body(pattern[1..])[0];
      }
    } else {
      assert pattern[0..] == pattern && Body(pattern)[0..] == Body(pattern);
    }
  }

  lemma {:induction false} ParsesBack(pattern: string)
    ensures ParseTerms(Body(pattern)) == TermsOf(pattern)
    decreases |pattern|
  {
    if |pattern| > 0 && pattern[0] != '?' {
      var rest := pattern[1..];
      BodyOfFirst(pattern);
      if pattern[0] == '*' {
        BodyStart(rest);
        var after := Body(pattern)[1..];
        assert after == "*" + Body(rest);
        if |rest| > 0 && rest[0] == '?' {
          assert after[2..] == Body(rest[1..]) && rest[1..] == pattern[2..];
          ParsesBack(pattern[2..]);
        } else {
          assert after[1..] == Body(rest);
          ParsesBack(rest);
        }
      } else {
        var marks := QuestionMarks(rest);
        MarksSurvive(rest);
        assert Body(pattern)[if IsSpecial(pattern[0]) then 2 else 1..] == Body(rest);
        assert rest[marks..] == pattern[1 + marks..];
        ParsesBack(pattern[1 + marks..]);
      }
    } else {
      BodyStart(pattern);
    }
  }

  lemma TestParses(pattern: string, id: string)
    ensures Test(pattern, id) == if TermsOf(pattern).None? then None else Some(Accepts(TermsOf(pattern).value, id))
  {
    assert GlobToRegExp(pattern)[1..|GlobToRegExp(pattern)| - 1] == Body(pattern);
    ParsesBack(pattern);
  }

  // ---- Without '?', the expression accepts what the pattern means ----

  lemma {:induction false} StarAbsorbs(regex: Regex, text: string, s: string)
    requires |regex| > 0 && regex[0] == Term(Dot, Star) && OneLine(text) && Accepts(regex[1..], s)
    ensures Accepts(regex, text + s)
    decreases |text|
  {
    if |text| == 0 {
      assert text + s == s;
    } else {
      StarAbsorbs(regex, text[1..], s);
      assert (text + s)[1..] == text[1..] + s;
    }
  }

  lemma {:induction false} MeaningIsAccepted(pattern: string, fill: seq<string>, id: string)
    requires '?' !in pattern && FillsTo(pattern, fill, id)
    ensures TermsOf(pattern).Some? && Accepts(TermsOf(pattern).value, id)
    decreases |pattern|
  {
    if |pattern| > 0 {
      var rest := Filled(pattern[1..], fill[1..]);
      MeaningIsAccepted(pattern[1..], fill[1..], rest);
      var regex := TermsOf(pattern).value;
      assert regex[1..] == TermsOf(pattern[1..]).value;
      if pattern[0] == '*' {
        StarAbsorbs(regex, fill[0], rest);
      } else {
        assert id[1..] == rest;
      }
    }
  }

  lemma {:induction false} AcceptedHasMeaning(pattern: string, id: string) returns (fill: seq<string>)
    requires '?' !in pattern && TermsOf(pattern).Some? && Accepts(TermsOf(pattern).value, id)
    ensures FillsTo(pattern, fill, id)
    decreases |pattern|, |id|
  {
    fill := [];
    if |pattern| > 0 {
      AlwaysCompiles(pattern[1..]);
      var regex := TermsOf(pattern).value;
      assert regex[1..] == TermsOf(pattern[1..]).value;
      if pattern[0] == '*' {
        if Accepts(regex[1..], id) {
          var others := AcceptedHasMeaning(pattern[1..], id);
          fill := [""] + others;
        } else {
          var more := AcceptedHasMeaning(pattern, id[1..]);
          fill := [[id[0]] + more[0]] + more[1..];
        }
      } else {
        var others := AcceptedHasMeaning(pattern[1..], id[1..]);
        assert [id[0]] + id[1..] == id;
        fill := [""] + others;
      }
    }
  }

  lemma {:induction false} AlwaysCompiles(pattern: string)
    requires '?' !in pattern
    ensures TermsOf(pattern).Some?
    decreases |pattern|
  {
    if |pattern| > 0 {
      assert forall i :: 0 <= i < |pattern[1..]| ==> pattern[1..][i] in pattern;
      AlwaysCompiles(pattern[1..]);
    }
  }

  /** For a pattern without '?', the compiled expression accepts exactly the ids the pattern means. */
  lemma GlobMeansItself(pattern: string, id: string)
    requires '?' !in pattern
    ensures Test(pattern, id).Some? && (Test(pattern, id).value <==> Means(pattern, id))
  {
    TestParses(pattern, id);
    AlwaysCompiles(pattern);
    if Test(pattern, id).value {
      var fill := AcceptedHasMeaning(pattern, id);
    }
    if Means(pattern, id) {
      var fill :| FillsTo(pattern, fill, id);
      MeaningIsAccepted(pattern, fill, id);
    }
  }

  // ---- With '?', it does not ----

  // The pattern's own text without '*' and '?'.
  function Plain(pattern: string): string {
    if |pattern| == 0 then "" else (if pattern[0] in {'*', '?'} then [] else [pattern[0]]) + Plain(pattern[1..])
  }

  lemma {:induction false} PlainIsAccepted(pattern: string)
    requires TermsOf(pattern).Some?
    ensures Accepts(TermsOf(pattern).value, Plain(pattern))
    decreases |pattern|
  {
    if |pattern| > 0 {
      var lazyStar := pattern[0] == '*' && |pattern| > 1 && pattern[1] == '?';
      var marks := if pattern[0] == '*' then (if lazyStar then 1 else 0) else QuestionMarks(pattern[1..]);
      var rest := pattern[1 + marks..];
      assert rest == pattern[1..][marks..];
      PlainIsAccepted(rest);
      var regex := TermsOf(pattern).value;
      assert regex[1..] == TermsOf(rest).value;
      if pattern[0] == '*' {
        assert lazyStar ==> Plain(pattern[1..]) == Plain(rest);
        assert Plain(pattern) == Plain(rest);
      } else {
        assert Plain(pattern)[0] == pattern[0] && Plain(pattern)[1..] == Plain(rest);
      }
    }
  }

  lemma {:induction false} PlainHasNoMark(pattern: string)
    ensures '?' !in Plain(pattern)
  {
    if |pattern| > 0 {
      PlainHasNoMark(pattern[1..]);
    }
  }

  lemma {:induction false} MarksAreKept(pattern: string, fill: seq<string>)
    requires |fill| == |pattern| && '?' in pattern
    ensures '?' in Filled(pattern, fill)
    decreases |pattern|
  {
    if pattern[0] != '?' {
      assert '?' in pattern[1..];
      MarksAreKept(pattern[1..], fill[1..]);
    }
  }

  /** The compiler keeps the meaning of a pattern for every id if and only if the pattern has no '?':
      that character is not escaped, so it makes the expression invalid or the character before it optional. */
  lemma GlobKeepsMeaningIff(pattern: string)
    ensures (forall id :: Test(pattern, id).Some? && (Test(pattern, id).value <==> Means(pattern, id))) <==> '?' !in pattern
  {
    if '?' !in pattern {
      forall id ensures Test(pattern, id).Some? && (Test(pattern, id).value <==> Means(pattern, id)) {
        GlobMeansItself(pattern, id);
      }
    } else {
      var id := Plain(pattern);
      TestParses(pattern, id);
      if Test(pattern, id).Some? {
        PlainIsAccepted(pattern);
        PlainHasNoMark(pattern);
        if Means(pattern, id) {
          var fill :| FillsTo(pattern, fill, id);
          MarksAreKept(pattern, fill);
        }
        assert Test(pattern, id).value && !Means(pattern, id);
      }
    }
  }
}
