/**
 * The older per-line container (whylog/assistant/regex_assistant/regex_object.py).
 * Unlike RegexMatch it checks a new regex against the line before storing
 * anything, and anchors it at both ends.
 */
module RegexObjects {
  import opened Wrappers
  import opened RegexText
  import opened Patterns
  import opened Externals
  import opened RegexMatches

  /** `if not new_regex[0] == '^': new_regex = '^' + new_regex`. */
  function AnchorStart(r: string): (a: string)
    requires r != []
    ensures a != [] && a[0] == '^'
    ensures |r| <= |a| <= |r| + 1 && a[|a| - |r|..] == r
    ensures a == r <==> r[0] == '^'
  {
    if r[0] != '^' then "^" + r else r
  }

  /** Both anchors, each added only when missing. */
  function AnchorBoth(r: string): (a: string)
    requires r != []
  {
    AnchorEnd(AnchorStart(r))
  }

  /** The anchored regex begins with `^`, ends with `$`, and keeps `r` between them. */
  lemma AnchorBothShape(r: string)
    requires r != []
    ensures var a := AnchorBoth(r);
            && a[0] == '^' && a[|a| - 1] == '$'
            && |r| <= |a| <= |r| + 2
            && (AnchorBoth(r) == r <==> r[0] == '^' && r[|r| - 1] == '$')
  {
    var s := AnchorStart(r);
    assert s[|s| - 1] == r[|r| - 1];
  }

  /** Anchoring an anchored regex changes nothing. */
  lemma AnchorBothIdempotent(r: string)
    requires r != []
    ensures AnchorBoth(AnchorBoth(r)) == AnchorBoth(r)
  {
    AnchorBothShape(r);
    AnchorBothShape(AnchorBoth(r));
  }

  class RegexObject {
    const lineText: string
    const env: Env
    var regex: string
    var paramGroups: Groups
    var guessed: map<int, PatternMatch>

    /** The guesses of the line are stored, and guess 0 exists. */
    ghost predicate Valid()
      reads this
    {
      guessed == Keyed(env.guessRegexObjects(lineText)) && 0 in guessed
    }

    /**
     * Stores the obvious regex of the line, then the guesses, and takes the first guess.
     * The constructor raises unless the line is non-empty (`new_regex[0]` of an empty
     * obvious regex), its obvious regex matches it, and some regex is guessed for it.
     */
    constructor (lineText: string, env: Env)
      requires lineText != []
      requires env.re.fullMatch(ObviousRegex(lineText), lineText)
      requires |env.guessRegexObjects(lineText)| > 0
      ensures this.lineText == lineText && this.env == env
      ensures Valid()
      ensures var first := env.guessRegexObjects(lineText)[0];
              regex == first.pattern && paramGroups == first.paramGroups
    {
      this.lineText := lineText;
      this.env := env;
      regex := [];
      paramGroups := map[];
      guessed := map[];
      new;
      var obvious := CreateObviousRegex(lineText);
      ObviousRegexLength(lineText);
      var outcome := UpdateByRegex(obvious);
      assert outcome == Pass;
      GuessRegexes();
    }

    /** `convert_to_pattern_object`. */
    function ConvertToPatternObject(): (pm: PatternMatch)
      reads this
      ensures pm.lineText == lineText && pm.pattern == regex && pm.paramGroups == paramGroups
    {
      PatternMatch(lineText, regex, paramGroups)
    }

    /**
     * Checks the regex against the whole line first: when it does not match, or is
     * empty, nothing is stored. Otherwise stores it anchored at both ends, with the
     * matched groups numbered from 1 and the STRING converter.
     */
    method UpdateByRegex(newRegex: string) returns (outcome: Outcome<RegexError>)
      modifies this
      ensures guessed == old(guessed)
      ensures !env.re.fullMatch(newRegex, lineText) ==>
                outcome == Fail(NotMatchingRegex(lineText, newRegex))
      ensures env.re.fullMatch(newRegex, lineText) && newRegex == [] ==> outcome == Fail(EmptyRegex)
      ensures outcome.Fail? ==> regex == old(regex) && paramGroups == old(paramGroups)
      ensures env.re.fullMatch(newRegex, lineText) && newRegex != [] ==>
                && outcome == Pass
                && regex == AnchorBoth(newRegex)
                && paramGroups == NumberedGroups(env.re.groups(newRegex, lineText), STRING)
      ensures old(Valid()) ==> Valid()
    {
      var verified := VerifyRegex(env.re, newRegex, lineText);
      if verified.Err? {
        return Fail(verified.error);
      }
      var groups := verified.value;
      if newRegex == [] {
        return Fail(EmptyRegex);
      }
      var anchored := newRegex;
      if anchored[0] != '^' {
        anchored := "^" + anchored;
      }
      if anchored[|anchored| - 1] != '$' {
        anchored := anchored + "$";
      }
      paramGroups := NumberedGroups(groups, STRING);
      regex := anchored;
      outcome := Pass;
    }

    /** Copies the pattern and the groups of the record as they are, unchecked. */
    method UpdateByRegexObject(pm: PatternMatch)
      modifies this
      ensures regex == pm.pattern && paramGroups == pm.paramGroups && guessed == old(guessed)
      ensures old(Valid()) ==> Valid()
    {
      regex := pm.pattern;
      paramGroups := pm.paramGroups;
    }

    /** Takes the guessed alternative with that key, as it is. */
    method UpdateByGuessedRegex(regexId: int)
      requires regexId in guessed
      modifies this
      ensures regex == old(guessed)[regexId].pattern && paramGroups == old(guessed)[regexId].paramGroups
      ensures guessed == old(guessed)
      ensures old(Valid()) ==> Valid()
    {
      UpdateByRegexObject(guessed[regexId]);
    }

    /** Stores the guesses keyed by position and takes the first one. */
    method GuessRegexes()
      requires |env.guessRegexObjects(lineText)| > 0
      modifies this
      ensures Valid()
      ensures var first := env.guessRegexObjects(lineText)[0];
              regex == first.pattern && paramGroups == first.paramGroups
    {
      var guesses := env.guessRegexObjects(lineText);
      guessed := Keyed(guesses);
      UpdateByGuessedRegex(0);
    }

    /** Changes the converter of one group and nothing else. */
    method SetConverter(groupNo: int, converter: Converter)
      requires groupNo in paramGroups
      modifies this
      ensures paramGroups.Keys == old(paramGroups.Keys)
      ensures paramGroups[groupNo] == old(paramGroups[groupNo]).(converter := converter)
      ensures forall g :: g in paramGroups && g != groupNo ==> paramGroups[g] == old(paramGroups[g])
      ensures regex == old(regex) && guessed == old(guessed)
      ensures old(Valid()) ==> Valid()
    {
      paramGroups := SetGroupConverter(paramGroups, groupNo, converter);
    }
  }
}
