/**
 * The regex assistant (whylog/assistant/regex_assistant/__init__.py): one
 * RegexMatch per line of the rule being taught, keyed by line id.
 */
module RegexAssistants {
  import opened Wrappers
  import opened RegexText
  import opened Patterns
  import opened Validation
  import opened Externals
  import opened Collections
  import opened RegexMatches

  class RegexAssistant {
    const env: Env
    var matches: map<int, RegexMatch>

    /** Every entry is a valid container for its own line id, and no two entries share one. */
    ghost predicate Valid()
      reads this, matches.Values
    {
      && Sound(env)
      && (forall k :: k in matches ==> matches[k].id == k && matches[k].env == env && matches[k].Valid())
      && (forall k, k' :: k in matches && k' in matches && k != k' ==> matches[k] != matches[k'])
    }

    /** What each line's container currently holds. */
    function Views(): (v: map<int, PatternMatch>)
      reads this, matches.Values
      ensures v.Keys == matches.Keys
      ensures forall k :: k in v ==> v[k] == matches[k].ConvertToPatternMatch()
    {
      map k | k in matches :: matches[k].ConvertToPatternMatch()
    }

    constructor (env: Env)
      requires Sound(env)
      ensures this.env == env && matches == map[] && Valid()
    {
      this.env := env;
      matches := map[];
    }

    /** A fresh container for the line, replacing any previous one; other lines keep theirs. */
    method AddLine(lineId: int, lineText: string)
      requires Valid()
      modifies this
      ensures Valid()
      ensures matches.Keys == old(matches.Keys) + {lineId}
      ensures fresh(matches[lineId]) && matches[lineId].lineText == lineText
      ensures var first := env.guessPatternMatches(lineText)[0];
              matches[lineId].regex == AnchorEnd(first.pattern) && matches[lineId].paramGroups == first.paramGroups
      ensures matches[lineId].guessed == Keyed(env.guessPatternMatches(lineText))
      ensures forall k :: k in old(matches) && k != lineId ==> matches[k] == old(matches[k])
    {
      var m := new RegexMatch(lineId, lineText, env);
      matches := matches[lineId := m];
    }

    /** Deletes exactly the entry of the line. */
    method RemoveLine(lineId: int)
      requires Valid() && lineId in matches
      modifies this
      ensures Valid()
      ensures matches == old(matches) - {lineId}
    {
      matches := matches - {lineId};
    }

    /** The line's text, regex and groups, read without change. */
    function GetPatternMatch(lineId: int): (pm: PatternMatch)
      requires lineId in matches
      reads this, matches.Values
      ensures pm.lineText == matches[lineId].lineText
      ensures pm.pattern == matches[lineId].regex
      ensures pm.paramGroups == matches[lineId].paramGroups
    {
      matches[lineId].ConvertToPatternMatch()
    }

    /** The line's guessed alternatives, as stored. */
    function GuessPatternMatches(lineId: int): (guesses: map<int, PatternMatch>)
      requires lineId in matches
      reads this, matches.Values
      ensures guesses == matches[lineId].guessed
    {
      matches[lineId].guessed
    }

    /** Updates the regex of one line; every other line is left as it was. */
    method UpdateByPattern(lineId: int, pattern: string) returns (outcome: Outcome<RegexError>)
      requires Valid() && lineId in matches
      modifies matches[lineId]
      ensures Valid() && matches == old(matches)
      ensures outcome == Fail(EmptyRegex) <==> pattern == []
      ensures pattern != [] ==> outcome == Pass
      ensures outcome.Fail? ==> Views() == old(Views())
      ensures matches[lineId].guessed == old(matches[lineId].guessed)
      ensures outcome.Pass? ==>
                var m := matches[lineId];
                && m.regex == AnchorEnd(pattern)
                && m.paramGroups == (if m.Matches() then NumberedGroups(env.re.groups(m.regex, m.lineText), TO_STRING) else map[])
      ensures forall k :: k in matches && k != lineId ==> Views()[k] == old(Views())[k]
    {
      outcome := matches[lineId].UpdateByRegex(pattern);
    }

    /** Takes one of the line's guesses; every other line is left as it was. */
    method UpdateByGuessedPatternMatch(lineId: int, regexId: int) returns (outcome: Outcome<RegexError>)
      requires Valid() && lineId in matches && regexId in matches[lineId].guessed
      modifies matches[lineId]
      ensures Valid() && matches == old(matches)
      ensures outcome == Pass
      ensures var pm := old(matches[lineId].guessed[regexId]);
              matches[lineId].regex == AnchorEnd(pm.pattern) && matches[lineId].paramGroups == pm.paramGroups
      ensures forall k :: k in matches && k != lineId ==> Views()[k] == old(Views())[k]
    {
      outcome := matches[lineId].UpdateByGuessedRegex(regexId);
    }

    /** Changes the converter of one group of one line and nothing else. */
    method SetConverter(lineId: int, groupNo: int, converter: Converter)
      requires Valid() && lineId in matches && groupNo in matches[lineId].paramGroups
      modifies matches[lineId]
      ensures Valid() && matches == old(matches)
      ensures matches[lineId].regex == old(matches[lineId].regex)
      ensures matches[lineId].paramGroups == SetGroupConverter(old(matches[lineId].paramGroups), groupNo, converter)
      ensures forall k :: k in matches && k != lineId ==> Views()[k] == old(Views())[k]
    {
      matches[lineId].SetConverter(groupNo, converter);
    }

    /** The warnings of all lines. */
    function AllWarnings(keys: set<int>): set<Problem>
      requires keys <= matches.Keys
      reads this, matches.Values
    {
      set k, p | k in keys && p in matches[k].PatternWarnings() :: p
    }

    /** The errors of all lines. */
    function AllErrors(keys: set<int>): set<Problem>
      requires keys <= matches.Keys
      reads this, matches.Values
    {
      set k, p | k in keys && p in matches[k].ConverterErrors() :: p
    }

    /** The problems of every line, collected; nothing is changed. */
    method Validate() returns (r: ValidationResult)
      ensures forall p :: p in r.warnings <==> p in AllWarnings(matches.Keys)
      ensures forall p :: p in r.errors <==> p in AllErrors(matches.Keys)
    {
      var results: seq<ValidationResult> := [];
      var remaining := matches.Keys;
      ghost var done: set<int> := {};
      while remaining != {}
        invariant remaining + done == matches.Keys && remaining !! done
        invariant forall p :: p in ResultFromResults(results).warnings <==> p in AllWarnings(done)
        invariant forall p :: p in ResultFromResults(results).errors <==> p in AllErrors(done)
        decreases remaining
      {
        NonEmptyHasKey(remaining);
        var k :| k in remaining;
        var v := matches[k].Validate();
        ResultFromResultsAppend(results, [v]);
        assert ResultFromResults([v]).errors == v.errors && ResultFromResults([v]).warnings == v.warnings by {
          assert [v][1..] == [];
        }
        AllStep(done, k);
        results := results + [v];
        remaining := remaining - {k};
        done := done + {k};
      }
      r := ResultFromResults(results);
    }

    lemma AllStep(done: set<int>, k: int)
      requires done <= matches.Keys && k in matches
      ensures AllWarnings(done + {k}) == AllWarnings(done) + matches[k].PatternWarnings()
      ensures AllErrors(done + {k}) == AllErrors(done) + matches[k].ConverterErrors()
    {
    }
  }
}
