/**
 * The live per-line container of the regex assistant
 * (whylog/assistant/regex_assistant/regex_match.py): a line, the regex the
 * user is editing for it, the parameter groups that regex catches, and the
 * alternatives the guessing module proposed when the line was added.
 */
module RegexMatches {
  import opened Wrappers
  import opened RegexText
  import opened Patterns
  import opened Validation
  import opened Externals
  import opened Collections

  /** `if new_regex[-1] != '$': new_regex += '$'`. */
  function AnchorEnd(r: string): (a: string)
    requires r != []
    ensures a != [] && a[|a| - 1] == '$'
    ensures |r| <= |a| <= |r| + 1 && a[..|r|] == r
    ensures a == r <==> r[|r| - 1] == '$'
  {
    if r[|r| - 1] != '$' then r + "$" else r
  }

  /** Anchoring twice is anchoring once. */
  lemma AnchorEndIdempotent(r: string)
    requires r != []
    ensures AnchorEnd(AnchorEnd(r)) == AnchorEnd(r)
  {
  }

  /**
   * `param_group.validate_converter(line_id)` for group number `groupNo`: a
   * WrongConverterProblem error exactly when the converter rejects the content.
   */
  function ValidateConverter(env: Env, groupNo: int, group: ParamGroup, lineId: int): (r: ValidationResult)
    ensures r.warnings == []
    ensures env.converterOk(group.content, group.converter) ==> r.errors == []
    ensures !env.converterOk(group.content, group.converter) ==>
              r.errors == [WrongConverterProblem(groupNo, group.converter, lineId)]
  {
    if env.converterOk(group.content, group.converter) then NoProblems
    else ValidationResult([WrongConverterProblem(groupNo, group.converter, lineId)], [])
  }

  class RegexMatch {
    const id: int
    const lineText: string
    const env: Env
    var regex: string
    var paramGroups: Groups
    var guessed: map<int, PatternMatch>

    /** What holds once the constructor has run, and every update keeps. */
    ghost predicate Valid()
      reads this
    {
      && regex != [] && regex[|regex| - 1] == '$'
      && guessed == Keyed(env.guessPatternMatches(lineText))
      && GuessesOk(env.guessPatternMatches(lineText))
    }

    /** The match of the current regex against the line. */
    predicate Matches()
      reads this
    {
      env.re.fullMatch(regex, lineText)
    }

    /** Guesses the alternatives for the line and takes the first one. */
    constructor (id: int, lineText: string, env: Env)
      requires Sound(env)
      ensures this.id == id && this.lineText == lineText && this.env == env
      ensures Valid()
      ensures guessed == Keyed(env.guessPatternMatches(lineText))
      ensures var first := env.guessPatternMatches(lineText)[0];
              regex == AnchorEnd(first.pattern) && paramGroups == first.paramGroups
    {
      this.id := id;
      this.lineText := lineText;
      this.env := env;
      regex := [];
      paramGroups := map[];
      guessed := map[];
      new;
      GuessRegexes();
      var outcome := UpdateByGuessedRegex(0);
    }

    /** `convert_to_pattern_match`: the line, the regex and the groups, as a record. */
    function ConvertToPatternMatch(): (pm: PatternMatch)
      reads this
      ensures pm.lineText == lineText && pm.pattern == regex && pm.paramGroups == paramGroups
    {
      PatternMatch(lineText, regex, paramGroups)
    }

    /**
     * Stores the regex, with `$` appended when it does not end in one, and rebuilds the
     * groups from it: the matched groups numbered from 1 with the TO_STRING converter,
     * or none when it does not match the line. An empty regex fails before anything
     * is stored.
     */
    method UpdateByRegex(newRegex: string) returns (outcome: Outcome<RegexError>)
      modifies this
      ensures guessed == old(guessed)
      ensures newRegex == [] ==>
                outcome == Fail(EmptyRegex) && regex == old(regex) && paramGroups == old(paramGroups)
      ensures newRegex != [] ==> outcome == Pass && regex == AnchorEnd(newRegex)
      ensures newRegex != [] && !Matches() ==> paramGroups == map[]
      ensures newRegex != [] && Matches() ==>
                paramGroups == NumberedGroups(env.re.groups(regex, lineText), TO_STRING)
      ensures old(Valid()) ==> Valid()
    {
      if newRegex == [] {
        return Fail(EmptyRegex);
      }
      var anchored := newRegex;
      if anchored[|anchored| - 1] != '$' {
        anchored := anchored + "$";
      }
      regex := anchored;
      var verified := VerifyRegex(env.re, anchored, lineText);
      if verified.Err? {
        paramGroups := map[];
        return Pass;
      }
      var groups := env.re.groups(anchored, lineText);
      paramGroups := NumberedGroups(groups, TO_STRING);
      outcome := Pass;
    }

    /** Takes the pattern by the rule of UpdateByRegex, then the record's own groups. */
    method UpdateByPatternMatch(pm: PatternMatch) returns (outcome: Outcome<RegexError>)
      modifies this
      ensures guessed == old(guessed)
      ensures pm.pattern == [] ==>
                outcome == Fail(EmptyRegex) && regex == old(regex) && paramGroups == old(paramGroups)
      ensures pm.pattern != [] ==>
                outcome == Pass && regex == AnchorEnd(pm.pattern) && paramGroups == pm.paramGroups
      ensures old(Valid()) ==> Valid()
    {
      outcome := UpdateByRegex(pm.pattern);
      if outcome.Fail? {
        return;
      }
      paramGroups := pm.paramGroups;
    }

    /** Takes the guessed alternative with that key. */
    method UpdateByGuessedRegex(regexId: int) returns (outcome: Outcome<RegexError>)
      requires regexId in guessed
      modifies this
      ensures guessed == old(guessed)
      ensures var pm := old(guessed)[regexId];
              && (pm.pattern == [] ==>
                    outcome == Fail(EmptyRegex) && regex == old(regex) && paramGroups == old(paramGroups))
              && (pm.pattern != [] ==>
                    outcome == Pass && regex == AnchorEnd(pm.pattern) && paramGroups == pm.paramGroups)
      ensures Valid() ==> outcome == Pass
      ensures old(Valid()) ==> Valid()
    {
      outcome := UpdateByPatternMatch(guessed[regexId]);
    }

    /** The guesses for the line, keyed by their position in guess order. */
    method GuessRegexes()
      modifies this
      ensures guessed == Keyed(env.guessPatternMatches(lineText))
      ensures regex == old(regex) && paramGroups == old(paramGroups)
    {
      var guesses := env.guessPatternMatches(lineText);
      guessed := Keyed(guesses);
    }

    /** Changes the converter of one group and nothing else. */
    method SetConverter(groupNo: int, converter: Converter)
      requires groupNo in paramGroups
      modifies this
      ensures paramGroups == SetGroupConverter(old(paramGroups), groupNo, converter)
      ensures paramGroups.Keys == old(paramGroups.Keys)
      ensures paramGroups[groupNo] == old(paramGroups[groupNo]).(converter := converter)
      ensures forall g :: g in paramGroups && g != groupNo ==> paramGroups[g] == old(paramGroups[g])
      ensures regex == old(regex) && guessed == old(guessed)
      ensures old(Valid()) ==> Valid()
    {
      paramGroups := SetGroupConverter(paramGroups, groupNo, converter);
    }

    /** The warning `validate` is meant to give: the regex does not match the line. */
    function PatternWarnings(): set<Problem>
      reads this
    {
      if Matches() then {} else {NotMatchingPatternProblem(id)}
    }

    /** The errors `validate` is meant to give: one per group its converter rejects. */
    function ConverterErrorsOf(keys: set<int>): set<Problem>
      requires keys <= paramGroups.Keys
      reads this
    {
      set g | g in keys && !env.converterOk(paramGroups[g].content, paramGroups[g].converter)
        :: WrongConverterProblem(g, paramGroups[g].converter, id)
    }

    function ConverterErrors(): set<Problem>
      reads this
    {
      ConverterErrorsOf(paramGroups.Keys)
    }

    /** No errors; a NotMatchingPatternProblem warning exactly when the regex does not match. */
    function ValidatePattern(): (r: ValidationResult)
      reads this
      ensures r.errors == []
      ensures forall p :: p in r.warnings <==> p == NotMatchingPatternProblem(id) && !Matches()
    {
      var verified := VerifyRegex(env.re, regex, lineText);
      if verified.Err? then ValidationResult([], [NotMatchingPatternProblem(id)]) else NoProblems
    }

    /** The converter problems of all groups, each once, in some order of the groups. */
    method ValidateConverters() returns (r: ValidationResult)
      ensures r.warnings == []
      ensures forall p :: p in r.errors <==> p in ConverterErrors()
      ensures forall i, j :: 0 <= i < j < |r.errors| ==> r.errors[i] != r.errors[j]
    {
      var results: seq<ValidationResult> := [];
      var remaining := paramGroups.Keys;
      ghost var done: set<int> := {};
      while remaining != {}
        invariant remaining + done == paramGroups.Keys && remaining !! done
        invariant ResultFromResults(results).warnings == []
        invariant forall p :: p in ResultFromResults(results).errors <==> p in ConverterErrorsOf(done)
        invariant forall p :: p in ResultFromResults(results).errors ==>
                    p.WrongConverterProblem? && p.groupNo in done
        invariant var es := ResultFromResults(results).errors;
                  forall i, j :: 0 <= i < j < |es| ==> es[i] != es[j]
        decreases remaining
      {
        NonEmptyHasKey(remaining);
        var g :| g in remaining;
        var v := ValidateConverter(env, g, paramGroups[g], id);
        ghost var es := ResultFromResults(results).errors;
        ResultFromResultsAppend(results, [v]);
        assert ResultFromResults([v]).errors == v.errors && ResultFromResults([v]).warnings == [] by {
          assert [v][1..] == [];
        }
        ConvertersStep(es, done, g);
        results := results + [v];
        remaining := remaining - {g};
        done := done + {g};
      }
      r := ResultFromResults(results);
    }

    /** The invariants of the loop of `_validate_converters` survive one more group. */
    lemma ConvertersStep(es: seq<Problem>, done: set<int>, g: int)
      requires done <= paramGroups.Keys && g in paramGroups && g !in done
      requires forall p :: p in es <==> p in ConverterErrorsOf(done)
      requires forall p :: p in es ==> p.WrongConverterProblem? && p.groupNo in done
      requires forall i, j :: 0 <= i < j < |es| ==> es[i] != es[j]
      ensures var more := es + ValidateConverter(env, g, paramGroups[g], id).errors;
              && (forall p :: p in more <==> p in ConverterErrorsOf(done + {g}))
              && (forall p :: p in more ==> p.WrongConverterProblem? && p.groupNo in done + {g})
              && (forall i, j :: 0 <= i < j < |more| ==> more[i] != more[j])
    {
      ConverterErrorsStep(done, g);
    }

    lemma ConverterErrorsStep(done: set<int>, g: int)
      requires done <= paramGroups.Keys && g in paramGroups && g !in done
      ensures ConverterErrorsOf(done + {g}) ==
                ConverterErrorsOf(done) + ValidateConverterSet(g)
    {
    }

    function ValidateConverterSet(g: int): set<Problem>
      requires g in paramGroups
      reads this
    {
      set p | p in ValidateConverter(env, g, paramGroups[g], id).errors
    }

    /**
     * `validate`: the NotMatchingPatternProblem warning exactly when the regex does not
     * match, never as an error, and the converter problems of the groups as errors.
     */
    method Validate() returns (r: ValidationResult)
      ensures forall p :: p in r.warnings <==> p in PatternWarnings()
      ensures forall p :: p in r.errors <==> p in ConverterErrors()
      ensures forall l :: NotMatchingPatternProblem(l) !in r.errors
    {
      var patternResult := ValidatePattern();
      var convertersResult := ValidateConverters();
      r := ResultFromResults([patternResult, convertersResult]);
      ResultFromTwo(patternResult, convertersResult);
    }
  }
}
