# whylog rule editor, modelled in Dafny

whylog is a log analyser whose users teach it rules: which lines of a log are the
effect, which are the causes, and how their parameters relate. This project models the
engine behind that editing:

- **Regex text helpers** (`RegexText`, regex.py):
  - the literal ("obvious") regex of a line;
  - the date-like generalisation of a line, which splits it into letter, digit,
    whitespace and other runs;
  - the parenthesis scan that recovers each capture group's position in the regex
    source;
  - the pairing of those positions with the group positions the regex engine reports.
- **Records** (`Patterns`, `Validation`): parameter groups, pattern matches, the two
  validation problem kinds, and the result record that collects problems.
- **Per-line containers** (`RegexMatches`, `RegexObjects`):
  - `RegexMatch` is the live container of a line. It stores the regex the user edits,
    anchored with `$`. It rebuilds the parameter groups from that regex and keeps the
    guessed alternatives.
  - `RegexObject` is the older container. It checks a regex against the line before
    storing anything and anchors it at both ends.
- **The regex assistant** (`RegexAssistants`): one `RegexMatch` per line id.
- **Constraint verification** (`Constraints`): `IdenticalConstraint.verify` and
  `TimeConstraint.verify`.
- **The link index** (`ConstraintLinks`): triples (line, group, constraint id). It has
  the behaviour the teacher relies on.
- **The teacher** (`Teachers`) keeps a parser per line, the registered constraints and
  the link index. It deletes in cascade: removing a line or editing its pattern
  deregisters every constraint linked to the line. Its invariant `LinksExact` says two
  things, and every public operation keeps it:
  - every link names a registered constraint that relates the link's group;
  - every group a registered constraint relates is linked to it.

Python's `re` engine, the guessing module, the converters and the configuration's
parser-name proposal are not modelled. They are function-valued fields of the records
`RegexText.Re` and `Externals.Env`. `Externals.Sound` states the two facts the model
relies on:
- the guesser gives at least one guess, and every guessed pattern is non-empty;
- a proposed parser name is never in the blacklist it was given.

Python dictionaries whose iteration order matters (`validate`, `get_rule`) are iterated
in an unspecified order. Their contracts are stated on sets of problems and of
constraints.

Where the code and its documentation disagree, the model follows the code:
- `RegexMatch.update_by_regex` never prepends `^`, although its doc comment says it does.
- `group_spans_from_regex` sorts the ranges found in the regex source, not the text
  spans. It then pairs the sorted regex ranges with the engine's text spans in group
  order.
- The parenthesis scan starts at position 1. A regex whose first character opens a group
  therefore fails with an unmatched `)` (`RegexText.LeadingGroupIsMissed`).
- `update_pattern` deregisters the line's constraints only when the assistant accepts
  the pattern. An empty pattern raises `IndexError` in `update_by_regex` before the
  cascade, so nothing changes.

## Model

| member | source | states |
|---|---|---|
| RegexText.VerifyRegex | whylog/assistant/regex_assistant/regex.py:54-67 | Ok with the engine's groups exactly when the anchored regex matches the whole text, otherwise NotMatchingRegex(text, regex) |
| RegexText.CreateMatchingEverythingRegex | whylog/assistant/regex_assistant/regex.py:116-117 | the result is `.*` whatever the text |
| RegexText.CreateObviousRegex | whylog/assistant/regex_assistant/regex.py:70-84 | the loop over the backslash-doubled text computes ObviousRegex(text): both passes of the source |
| RegexText.ObviousCons | whylog/assistant/regex_assistant/regex.py:78-84 | each character is treated on its own: a backslash becomes two, a special character gets one backslash in front, any other character is copied |
| RegexText.ObviousConcat | whylog/assistant/regex_assistant/regex.py:78-84 | the obvious regex of a concatenation is the concatenation of the obvious regexes |
| RegexText.ObviousRegexLength | whylog/assistant/regex_assistant/regex.py:78-84 | output length = input length + number of backslashes + number of special characters |
| RegexText.UnescapeCons | whylog/assistant/regex_assistant/regex.py:78-84 | the escape of one character, undone, gives back that character in front of the rest |
| RegexText.UnescapeObvious | whylog/assistant/regex_assistant/regex.py:78-84 | dropping the inserted backslash of every escape pair recovers the text |
| RegexText.ObviousRegexInjective | whylog/assistant/regex_assistant/regex.py:78-84 | distinct texts have distinct obvious regexes |
| RegexText.ObviousRegexOfPlainText | whylog/assistant/regex_assistant/regex.py:78-84 | a text with no special character and no backslash is its own obvious regex |
| RegexText.FirstAlternative | whylog/assistant/regex_assistant/regex.py:12 | some alternative of `group_pattern` matches every character except `_`; the one chosen matches it |
| RegexText.RunLength | whylog/assistant/regex_assistant/regex.py:12 | the greedy match of one alternative: every character in it belongs to the alternative, the next one does not, and it is non-empty when the first character belongs |
| RegexText.TokenizeRuns | whylog/assistant/regex_assistant/regex.py:98 | every match of `finditer` is a non-empty run of characters of its alternative |
| RegexText.TokenizeCoversText | whylog/assistant/regex_assistant/regex.py:98 | the matches, concatenated, are the text with every `_` removed |
| RegexText.DateRegexUnfold | whylog/assistant/regex_assistant/regex.py:98-112 | a character no alternative matches adds nothing; otherwise the run starting there adds its piece and the scan goes on after the run |
| RegexText.DateRegexSkip | whylog/assistant/regex_assistant/regex.py:98-112 | skipping an unmatched character keeps the date regex of the text unchanged |
| RegexText.RunRegex | whylog/assistant/regex_assistant/regex.py:100-112 | the piece of one match: `[a-zA-Z]+` for letters; `[0-9]` with `{1,2}`, `{4}` or `+` for digits; otherwise the obvious regex of the match |
| RegexText.MatchAt | whylog/assistant/regex_assistant/regex.py:98-112 | the greedy match of the first fitting alternative at a position is non-empty and in the text, and the date regex from there is that match's piece followed by the date regex after the match |
| RegexText.NextPiece | whylog/assistant/regex_assistant/regex.py:98-112 | the match at a position ends later, and the date regex from there is this match's piece followed by the date regex after it |
| RegexText.CreateDateRegex | whylog/assistant/regex_assistant/regex.py:87-113 | the loop computes DateRegex(text): each match's piece, in order |
| RegexText.DigitRunRegex | whylog/assistant/regex_assistant/regex.py:103-110 | a digit run of length up to 2 gives `[0-9]{1,2}`, of length 4 gives `[0-9]{4}`, of any other length gives `[0-9]+` |
| RegexText.LetterRunRegex | whylog/assistant/regex_assistant/regex.py:101-102 | a letter run of any length gives `[a-zA-Z]+` |
| RegexText.LeadingUnderscoreDropped | whylog/assistant/regex_assistant/regex.py:12 | an underscore, matched by no alternative, adds nothing to the date regex |
| RegexText.NonWordTextRegex | whylog/assistant/regex_assistant/regex.py:111-112 | text with no letter, digit or underscore gives its obvious regex, whatever its whitespace and other runs |
| RegexText.DayMonthYearRegex | whylog/assistant/regex_assistant/regex.py:87-91 | any two-digit day, month name and four-digit year joined by `/` gives `[0-9]{1,2}/[a-zA-Z]+/[0-9]{4}` |
| RegexText.DateRegexExample | whylog/assistant/regex_assistant/regex.py:91 | the documented example: `23/March/2016` gives `[0-9]{1,2}/[a-zA-Z]+/[0-9]{4}` |
| RegexText.Scan | whylog/assistant/regex_assistant/regex.py:34-39 | a failed scan fails with UnmatchedParenthesis; a successful one keeps the ranges already found as a prefix |
| RegexText.GroupRangesInRegex | whylog/assistant/regex_assistant/regex.py:32-39 | the deque loop computes GroupRanges(regex): each unescaped `)` paired with the most recent unmatched `(`, scanning from position 1 |
| RegexText.GroupRangesWellFormed | whylog/assistant/regex_assistant/regex.py:32-39 | every range of a successful scan joins an unescaped `(` to a later unescaped `)`, ranges come in the order of their `)`, no two share a `(`, and any two are disjoint or nested |
| RegexText.ScanClosesEvery | whylog/assistant/regex_assistant/regex.py:32-39 | a successful scan from a position closes a new range at every unescaped `)` from there on |
| RegexText.GroupRangesClosesEvery | whylog/assistant/regex_assistant/regex.py:32-39 | every unescaped `)` of the regex closes one of the ranges of a successful scan, so no group is missed |
| RegexText.GroupRangesFailIff | whylog/assistant/regex_assistant/regex.py:38-39 | the scan fails exactly when some prefix of two or more characters has, from position 1 on, more unescaped `)` than unescaped `(` |
| RegexText.LeadingGroupIsMissed | whylog/assistant/regex_assistant/regex.py:34 | position 0 is never looked at: `(a)` fails, while `^(a)` gives the range (1, 3) |
| RegexText.SortRangesSorted | whylog/assistant/regex_assistant/regex.py:41 | sorting is a permutation of the ranges, ordered by tuple order and so by `(` position |
| RegexText.SortedRangesWellFormed | whylog/assistant/regex_assistant/regex.py:41 | sorted well-formed ranges are still well formed |
| RegexText.GroupRegexesBetweenParens | whylog/assistant/regex_assistant/regex.py:42 | each group regex is exactly the text strictly between the parentheses of its range |
| RegexText.ZipSpans | whylog/assistant/regex_assistant/regex.py:43-49 | `zip` is as long as the shorter list, and span i has the i-th text range and the i-th group regex |
| RegexText.GroupSpansFromRegex | whylog/assistant/regex_assistant/regex.py:15-51 | a regex shorter than 2 gives no spans; a non-matching one gives NotMatchingRegex; an unmatched `)` gives UnmatchedParenthesis; otherwise span i has the engine's i-th group range and the text between the parentheses of the i-th sorted range |
| Patterns.Equal | whylog/assistant/pattern_match.py:11-12 | two groups are equal exactly when their contents and their converters are equal |
| Patterns.EqualIsEquivalence | whylog/assistant/pattern_match.py:11-12 | group equality is reflexive, symmetric and transitive |
| Patterns.WithConverter | whylog/assistant/pattern_match.py:6-9 | assigning the converter keeps the content and sets the converter |
| Patterns.ChangedConverterNotEqual | whylog/assistant/pattern_match.py:11-12 | a group with a changed converter is equal to the old group exactly when the converter did not change |
| Patterns.NumberedGroups | whylog/assistant/regex_assistant/regex_match.py:63-67 | the keys are exactly 1..N, and key k holds the k-th matched group with the given converter |
| Patterns.NumberedGroupsEmpty | whylog/assistant/regex_assistant/regex_match.py:63-67 | there are no parameter groups exactly when no group matched |
| Patterns.SetGroupConverter | whylog/assistant/regex_assistant/regex_match.py:85-86 | the same keys; the chosen group keeps its content and takes the converter; every other group is unchanged |
| Validation.ResultFromResultsMembers | whylog/assistant/regex_assistant/regex_match.py:93 | a problem is an error (a warning) of the collected result exactly when it is an error (a warning) of one of the results |
| Validation.ResultFromResultsAppend | whylog/assistant/regex_assistant/__init__.py:47-51 | collecting a concatenated list is concatenating the collected errors and the collected warnings |
| Validation.ResultFromTwo | whylog/assistant/regex_assistant/regex_match.py:110-114 | collecting two results concatenates their errors and their warnings |
| Externals.Keyed | whylog/assistant/regex_assistant/regex_match.py:76-83 | the guesses are keyed 0..n-1 in guess order |
| RegexMatches.AnchorEnd | whylog/assistant/regex_assistant/regex_match.py:46-47 | the result ends in `$` and begins with the regex; it is the regex itself exactly when the regex already ends in `$`, and otherwise one `$` longer |
| RegexMatches.AnchorEndIdempotent | whylog/assistant/regex_assistant/regex_match.py:46-47 | anchoring twice is anchoring once |
| RegexMatches.ValidateConverter | whylog/assistant/regex_assistant/regex_match.py:88-93 | no warnings; one WrongConverterProblem error for the group exactly when its converter rejects its content |
| RegexMatches.RegexMatch.constructor | whylog/assistant/regex_assistant/regex_match.py:27-37 | the id and line are stored; the guesses are keyed 0..n-1 in guess order; the state is guess 0's, with the regex anchored by `$` |
| RegexMatches.RegexMatch.ConvertToPatternMatch | whylog/assistant/regex_assistant/regex_match.py:39-40 | the record holds the line, the regex and the groups unchanged |
| RegexMatches.RegexMatch.UpdateByRegex | whylog/assistant/regex_assistant/regex_match.py:42-67 | an empty regex fails and changes nothing; otherwise the stored regex is the new one with `$` appended if missing, and no `^`; the groups are empty when it does not match, else the matched groups numbered 1..N with TO_STRING; the guesses and the invariant are kept |
| RegexMatches.RegexMatch.UpdateByPatternMatch | whylog/assistant/regex_assistant/regex_match.py:69-71 | the regex follows the rule of UpdateByRegex and the groups are the record's own |
| RegexMatches.RegexMatch.UpdateByGuessedRegex | whylog/assistant/regex_assistant/regex_match.py:73-74 | the regex and the groups of the chosen guess, the regex anchored by `$`; on a valid container it never fails |
| RegexMatches.RegexMatch.GuessRegexes | whylog/assistant/regex_assistant/regex_match.py:76-83 | the guesses are keyed 0..n-1 in guess order; the regex and the groups are untouched |
| RegexMatches.RegexMatch.SetConverter | whylog/assistant/regex_assistant/regex_match.py:85-86 | only that group's converter changes: its content, the other groups, the regex and the guesses stay |
| RegexMatches.RegexMatch.ValidateConverters | whylog/assistant/regex_assistant/regex_match.py:88-93 | no warnings; the errors are exactly the converter problems of the groups, each reported once |
| RegexMatches.RegexMatch.ValidatePattern | whylog/assistant/regex_assistant/regex_match.py:95-101 | no errors; a NotMatchingPatternProblem warning for the line exactly when the regex does not match it |
| RegexMatches.RegexMatch.Validate | whylog/assistant/regex_assistant/regex_match.py:103-114 | the warnings are exactly the pattern warning and the errors exactly the converter problems; NotMatchingPatternProblem is never an error |
| RegexObjects.AnchorStart | whylog/assistant/regex_assistant/regex_object.py:46-47 | the result starts with `^` and ends with the regex; it is the regex itself exactly when it already starts with `^` |
| RegexObjects.AnchorBothShape | whylog/assistant/regex_assistant/regex_object.py:46-49 | the result starts with `^`, ends with `$`, is at most two longer, and adds nothing to a regex that already has both anchors |
| RegexObjects.AnchorBothIdempotent | whylog/assistant/regex_assistant/regex_object.py:46-49 | anchoring at both ends twice is doing it once |
| RegexObjects.RegexObject.constructor | whylog/assistant/regex_assistant/regex_object.py:22-30 | after the obvious regex, the guesses are keyed 0..n-1 and the state is guess 0's, overriding the obvious regex |
| RegexObjects.RegexObject.ConvertToPatternObject | whylog/assistant/regex_assistant/regex_object.py:32-33 | the record holds the line, the regex and the groups unchanged |
| RegexObjects.RegexObject.UpdateByRegex | whylog/assistant/regex_assistant/regex_object.py:35-61 | a non-matching regex fails with NotMatchingRegex, and an empty one with EmptyRegex, before anything is stored; otherwise the regex is stored anchored at both ends, with the matched groups numbered 1..N and STRING |
| RegexObjects.RegexObject.UpdateByRegexObject | whylog/assistant/regex_assistant/regex_object.py:63-65 | the pattern and the groups are copied verbatim, unchecked |
| RegexObjects.RegexObject.UpdateByGuessedRegex | whylog/assistant/regex_assistant/regex_object.py:67-68 | the state becomes the chosen guess's pattern and groups; the guesses and the invariant are kept |
| RegexObjects.RegexObject.GuessRegexes | whylog/assistant/regex_assistant/regex_object.py:70-82 | the guesses are keyed 0..n-1 and the state is guess 0's |
| RegexObjects.RegexObject.SetConverter | whylog/assistant/regex_assistant/regex_object.py:84-86 | only that group's converter changes |
| RegexAssistants.RegexAssistant.constructor | whylog/assistant/regex_assistant/__init__.py:20-21 | no lines yet |
| RegexAssistants.RegexAssistant.AddLine | whylog/assistant/regex_assistant/__init__.py:23-25 | the line maps to a fresh container for its text, in guess 0's state, replacing any previous one; every other entry is unchanged |
| RegexAssistants.RegexAssistant.RemoveLine | whylog/assistant/regex_assistant/__init__.py:27-28 | exactly the line's entry is deleted |
| RegexAssistants.RegexAssistant.GetPatternMatch | whylog/assistant/regex_assistant/__init__.py:30-32 | the line's text, regex and groups, read without change |
| RegexAssistants.RegexAssistant.UpdateByPattern | whylog/assistant/regex_assistant/__init__.py:34-35 | fails exactly for an empty pattern, then changing nothing; any other pattern passes, the line's regex becomes the pattern anchored by `$`, and its groups are the matched groups numbered 1..N with TO_STRING, or none when the regex does not match; the line's guesses and every other line are unchanged |
| RegexAssistants.RegexAssistant.UpdateByGuessedPatternMatch | whylog/assistant/regex_assistant/__init__.py:37-38 | the line takes the chosen guess; every other line is unchanged |
| RegexAssistants.RegexAssistant.GuessPatternMatches | whylog/assistant/regex_assistant/__init__.py:40-42 | the line's guesses as stored |
| RegexAssistants.RegexAssistant.SetConverter | whylog/assistant/regex_assistant/__init__.py:44-45 | only that group of that line changes its converter |
| RegexAssistants.RegexAssistant.Validate | whylog/assistant/regex_assistant/__init__.py:47-51 | the warnings and errors are exactly those of the lines' validations, and nothing changes |
| Constraints.TimeVerify | whylog/constraints/__init__.py:15-18 | always true |
| Constraints.IdenticalVerify | whylog/constraints/__init__.py:25-29 | false for fewer than two contents; otherwise true exactly when every content equals the first |
| Constraints.IdenticalIsPairwiseEqual | whylog/constraints/__init__.py:29 | true exactly when there are two or more contents and all are pairwise equal |
| Constraints.IdenticalIgnoresParams | whylog/constraints/__init__.py:25-29 | the parameters have no effect |
| Constraints.IdenticalOrderIndependent | whylog/constraints/__init__.py:29 | reordering the contents does not change the verdict |
| Constraints.IdenticalExamples | whylog/tests/test_constraints/__init__.py:32-36 | `comp1, comp1, comp1` passes and `comp1, hello, comp1` fails, with empty parameters |
| ConstraintLinks.ConstraintLinksBase.constructor | whylog/teacher/__init__.py:31 | the index starts empty |
| ConstraintLinks.ConstraintLinksBase.AddLinks | whylog/teacher/__init__.py:128 | the given triples are added |
| ConstraintLinks.ConstraintLinksBase.RemoveLinksByConstraint | whylog/teacher/__init__.py:135 | exactly the triples of the constraint are dropped |
| ConstraintLinks.ConstraintLinksBase.RemoveLinksByLine | whylog/teacher/__init__.py:139 | the triples of the line are dropped, and their constraint ids are returned, each once |
| ConstraintLinks.ConstraintLinksBase.RemoveLinksByGroup | whylog/teacher/__init__.py:144-146 | the triples of the group are dropped, and their constraint ids are returned, each once |
| Collections.Min | whylog/teacher/__init__.py:60 | `min` of a non-empty key set: a key no greater than any other |
| Teachers.LinkList | whylog/teacher/__init__.py:125-127 | one link per group of the constraint, in order: exactly the set of its links |
| Teachers.LinksExactWith | whylog/teacher/__init__.py:124-128 | registering a constraint under a free id together with its links keeps the index exact |
| Teachers.LinksExactWithout | whylog/teacher/__init__.py:135-136 | removing constraints together with all their links keeps the index exact |
| Teachers.Teacher.constructor | whylog/teacher/__init__.py:25-32 | the given assistant; a new link index, empty; no parsers, no constraints, no effect |
| Teachers.Teacher.NamesBlacklist | whylog/teacher/__init__.py:46-47 | exactly the names of the parsers |
| Teachers.Teacher.RemoveConstraint | whylog/teacher/__init__.py:130-136 | the constraint and exactly its links are gone; other constraints, links and parsers stay; the link invariant is kept |
| Teachers.Teacher.RegisterConstraint | whylog/teacher/__init__.py:112-128 | a constraint under the id is removed first with its links; then the id maps to the new constraint and each of its groups is linked; the link invariant is kept |
| Teachers.Teacher.RemoveConstraintsByLine | whylog/teacher/__init__.py:138-141 | every constraint linked to the line is deregistered with all its links, and no link mentions the line |
| Teachers.Teacher.RemoveConstraintByGroup | whylog/teacher/__init__.py:143-148 | every constraint linked to the group is deregistered with all its links, and no link mentions the group |
| Teachers.Teacher.RemoveAll | whylog/teacher/__init__.py:140-141 | removing each returned id once deregisters exactly those constraints and their links, keeping the invariant |
| Teachers.Teacher.RemoveLine | whylog/teacher/__init__.py:70-79 | the line leaves the parsers and the assistant, the constraints linked to it are deregistered, and no remaining constraint relates any of its groups |
| Teachers.Teacher.NoConstraintOfLine | whylog/teacher/__init__.py:19-22 | with an exact index, when no link mentions a line no constraint relates it |
| Teachers.Teacher.UpdatePattern | whylog/teacher/__init__.py:81-88 | an empty pattern fails and changes nothing; any other pattern passes, the line's regex becomes the pattern anchored by `$` with the groups RegexAssistant.UpdateByPattern gives, and every constraint linked to the line is deregistered even if the pattern is unchanged, so no link mentions the line; the line's guesses, the parsers and the other lines stay |
| Teachers.Teacher.ChooseGuessedPattern | whylog/teacher/__init__.py:97-98 | the line takes the guess; the constraints stay |
| Teachers.Teacher.GuessPatternsAsWritten | whylog/teacher/__init__.py:90-95 | as written: succeeds only when the line has no guesses |
| Teachers.Teacher.GuessPatternsAsWrittenFails | whylog/teacher/__init__.py:90-95 | every line has a guess, so as written it always raises AttributeError |
| Teachers.Teacher.GuessPatterns | whylog/teacher/__init__.py:90-95 | the patterns of the line's guesses, all of them, in guess order |
| Teachers.Teacher.AddDefaultParser | whylog/teacher/__init__.py:49-68 | a new container for the line in the state of guess 0 of its text; a parser for the line object, with the name the configuration proposes for the text and that regex outside the names already taken, the least group number as primary key or none when there are no groups, and no log type; the other parsers, the other containers, the constraints and the effect stay |
| Teachers.Teacher.ProposeParser | whylog/teacher/__init__.py:52-68 | the parser of a line whose container is in place: the proposed name, which is outside the blacklist, the least group as primary key or none, and no log type |
| Teachers.Teacher.SetParser | whylog/teacher/__init__.py:68 | the line's parser is installed and only it changes; the teacher's invariant then holds |
| Teachers.Teacher.AddLine | whylog/teacher/__init__.py:34-44 | an existing line is removed first, with its constraints and their links; then the line has a new container in the state of guess 0 and the default parser (the name proposed outside the names of the other parsers, which differs from every other parser's, the least group as primary key, no log type); the effect is set when asked; every other parser and container stays |
| Teachers.Teacher.ClearLine | whylog/teacher/__init__.py:40-43 | the line, if present, is removed with its constraints and their links; the effect is set when asked; nothing else changes |
| Teachers.EffectSession | whylog/teacher/__init__.py:25-44 | a new teacher given the effect line 1 holds exactly that line, as the effect, with no constraints |
| Teachers.TwoLineSession | whylog/teacher/__init__.py:34-44 | after a cause line 2 is added, both lines are held and the effect stays line 1 |
| Teachers.LinkedSession | whylog/teacher/__init__.py:112-128 | registering a constraint over groups of both lines keeps both lines and links group 1 of line 1 to it |
| Teachers.EditedSession | whylog/teacher/__init__.py:81-88 | a new pattern for line 1 deregisters the constraint that relates it; line 1 has the anchored pattern |
| Teachers.EditSession | whylog/teacher/__init__.py:70-79 | removing line 2 then leaves only the effect line 1, with the edited pattern, and no constraints and no links |
| Teachers.Teacher.PrepareUserParser | whylog/teacher/__init__.py:170-182 | the parser's name, log type, primary keys and line, with the container's pattern and groups |
| Teachers.Teacher.GetRule | whylog/teacher/__init__.py:184-195 | the effect; one user parser per line, built by PrepareUserParser; as many constraints as there are registered ids, and some listing of the ids, each id once, such that each position holds the constraint of its id |

## Left out

- Python's `re` engine (`re.match`, `matcher.groups()`, `matcher.span`) is the uninterpreted `RegexText.Re`: a full-match test, the groups of that match and their spans in the text.
- `regex_groups`, imported by regex_match.py, is not defined in regex.py. It is modelled as `Re.groups`, the groups of the anchored match.
- The guessing module (`guess_pattern_match`, `guess_regex_objects`) is not part of this model and is a field of `Externals.Env`. For `RegexMatch`, `Sound` assumes at least one guess, each with a non-empty pattern.
- The converters are not part of this model. `Env.converterOk` decides whether a converter accepts a content.
- The configuration (`propose_parser_name`, `add_rule`, `Teacher.save`) is persistence. Only "the proposed name is not in the blacklist" is kept.
- whylog/log_reader/searchers.py is file I/O and is not part of this model.
- whylog/teacher/constraint_links_base.py is not part of this model. `ConstraintLinksBase` states the behaviour the teacher relies on, over a set of triples.
- `ValidationResult.result_from_results` is called but not defined on the record. It is modelled as concatenating the errors and concatenating the warnings.
- The pattern_object module (`PatternObject` and its `ParamGroup`) is not part of this model. `RegexObject` uses the same records as `RegexMatch`.
- `RegexObjects.RegexObject.constructor` requires a non-empty line, an obvious regex that the engine says matches the line, and at least one guess. In the source each of these failures is an exception raised from the constructor.
- `RegexObject.verify` returns `NotImplementedError` and is left out.
- `RegexMatches.RegexMatch.UpdateByRegex`, and with it `RegexAssistants.RegexAssistant.UpdateByPattern`, `Teachers.Teacher.UpdatePattern`, `RegexMatches.RegexMatch.ValidatePattern` and `RegexMatches.RegexMatch.Validate`, does not model `re.error` for a regex that does not compile. `RegexText.Re` is total, so such a regex simply does not match. In the source the new regex is stored first (regex_match.py:53), then `verify_regex` raises `re.error`, which is not a NotMatchingRegexError: the old groups stay, the exception leaves `update_pattern` before the constraints are removed, and `_validate_pattern` and `validate` raise as well. The model returns Pass with no groups and cascades.
- `Externals.Sound` requires a non-empty pattern for every guess of every text. That excludes the empty line: `add_line` of an empty line raises `IndexError` at `new_regex[-1]` (regex_match.py:50) when the guessed pattern is empty.
- `RegexMatches.ValidateConverter`: `ParamGroup` (pattern_match.py:6-12) defines no `validate_converter`, so `_validate_converters` as written raises `AttributeError` on a line with any group. The model gives the intended result instead. Its `groupNo` argument is also the model's own: the source calls `validate_converter(self.id)` over the values of the dictionary and never passes the group's key.
- `RegexMatch.update_by_regex` on an empty regex raises `IndexError`. It is modelled as `Fail(EmptyRegex)` with nothing changed, and `update_pattern` then does not cascade.
- `Teachers.Teacher.constructor` requires an assistant with no lines yet, so that the parsers and the assistant's containers start out in step.
- The `pass` stubs of `Teacher`: `set_pattern_name`, `set_converter`, `set_primary_key`, `set_log_type`, `set_causes_relation`, `_verify` and `test_rule`.
- The constraint constructors and the DifferentValue, ValueDelta and Hetero classes are empty. A constraint is a value of kind, groups and parameters. `convert_to_user_constraint_intent` is not shown, so `GetRule` returns the constraints themselves.
- `Teachers.Teacher.PrepareUserParser` leaves out the assistant type (`pattern_type`). The source passes nine arguments to a six-parameter `UserParserIntent`, so the record here has the eight remaining fields.
- `Teachers.Teacher.GetRule` returns the constraints in the order of `SetToSeq` over the ids: some order, each once. Python's dictionary order is not modelled.
- `RegexMatches.RegexMatch.SetConverter`, `RegexAssistants.RegexAssistant.SetConverter` and `RegexObjects.RegexObject.SetConverter` do not model aliasing of `ParamGroup` objects. `update_by_pattern_match` (regex_match.py:69-71) and `update_by_regex_object` (regex_object.py:63-65) make `param_groups` the very dictionary of the guess, so in the source `set_converter` also rewrites that guess (guess 0 right after construction). Here groups are values, and the guesses never change.
- A missing key, which raises `KeyError` in the source, is a precondition here. This applies to `Teachers.Teacher.RemoveLine`, `Teachers.Teacher.RemoveConstraint`, `Teachers.Teacher.UpdatePattern`, `Teachers.Teacher.ChooseGuessedPattern`, `Teachers.Teacher.PrepareUserParser`, `RegexAssistants.RegexAssistant.RemoveLine`, `RegexAssistants.RegexAssistant.UpdateByPattern`, `RegexAssistants.RegexAssistant.UpdateByGuessedPatternMatch`, `RegexAssistants.RegexAssistant.GetPatternMatch`, `RegexAssistants.RegexAssistant.GuessPatternMatches` and `RegexAssistants.RegexAssistant.SetConverter`. It also applies to `SetConverter` and `UpdateByGuessedRegex` of `RegexMatches.RegexMatch` and of `RegexObjects.RegexObject`. The source documents these as assumptions on its callers (for example teacher/__init__.py:73) and does not catch the error.
- `Constraints.IdenticalExamples` supplies empty parameters. The source test (tests/test_constraints/__init__.py:33, 36) calls the two-parameter `verify` with the contents alone, which as written raises `TypeError`.
- `__str__` message formatting of the problem classes.
- Non-ASCII text. `CreateDateRegex` requires ASCII input, and letters, digits, `\s` and `\w` are their ASCII meanings.

## Findings

| source | as written | input that shows it | evidently intended | confidence | as-written member | corrected member |
|---|---|---|---|---|---|---|
| whylog/teacher/__init__.py:90-95 | `guess_patterns` iterates over the dictionary of guesses, which yields its integer keys, and reads `.pattern` of each | any line: every line has at least one guess, so the first key `0` has no attribute `pattern` and `AttributeError` is raised | iterate over the guesses themselves (the dictionary's values) in key order, returning their patterns | high (not executed) | Teachers.Teacher.GuessPatternsAsWritten | Teachers.Teacher.GuessPatterns |
