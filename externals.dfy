/**
 * Collaborators of the rule editor that are not part of this model, as values:
 * the regex engine, the guessing module, the converters and the configuration's
 * parser-name proposal. `Sound` states what the model relies on them for.
 */
module Externals {
  import opened RegexText
  import opened Patterns

  datatype Env = Env(
    // Python's `re`
    re: Re,
    // guess_pattern_match(line_text), in guess order
    guessPatternMatches: string -> seq<PatternMatch>,
    // guess_regex_objects(line_text), in guess order
    guessRegexObjects: string -> seq<PatternMatch>,
    // whether a group's content can be read with a converter
    converterOk: (string, Converter) -> bool,
    // config.propose_parser_name(line_content, pattern, names_blacklist)
    proposeParserName: (string, string, set<string>) -> string
  )

  /** At least one guess, and every guessed pattern is non-empty. */
  predicate GuessesOk(guesses: seq<PatternMatch>) {
    |guesses| > 0 && forall i :: 0 <= i < |guesses| ==> guesses[i].pattern != []
  }

  /**
   * What the live assistant and the teacher rely on: every line gets a usable guess, and
   * a proposed parser name avoids the blacklist.
   */
  ghost predicate Sound(env: Env) {
    && (forall text :: GuessesOk(env.guessPatternMatches(text)))
    && (forall text, pattern, blacklist :: env.proposeParserName(text, pattern, blacklist) !in blacklist)
  }

  /** `dict((key, guesses[key]) for key in range(len(guesses)))`. */
  function Keyed(guesses: seq<PatternMatch>): (m: map<int, PatternMatch>)
    ensures forall k :: k in m <==> 0 <= k < |guesses|
    ensures forall k :: k in m ==> m[k] == guesses[k]
  {
    map k | 0 <= k < |guesses| :: guesses[k]
  }
}
