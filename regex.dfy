/**
 * The text side of regular expressions in the regex assistant
 * (whylog/assistant/regex_assistant/regex.py): the literal ("obvious")
 * regex of a line, the date-like generalisation of a line, the
 * parenthesis scan that finds every capture group's position in the regex
 * source, and the pairing of those with the group positions reported by
 * the regex engine.
 *
 * The engine itself (Python's `re`) is not modelled: it is the value `Re`,
 * a record of uninterpreted functions that stand for its answers.
 */
module RegexText {
  import opened Wrappers

  /** Stand-in for Python's `re` engine. */
  datatype Re = Re(
    // re.match('^%s$' % regex, text) is not None
    fullMatch: (string, string) -> bool,
    // the contents of the capture groups of that match, in group order
    groups: (string, string) -> seq<string>,
    // re.match(regex, text).span(k) for k = 1 .. number of groups
    groupSpans: (string, string) -> seq<(int, int)>
  )

  /** Errors raised by the functions of regex.py and by the containers that call them. */
  datatype RegexError =
    | NotMatchingRegex(text: string, regex: string)  // NotMatchingRegexError
    | UnmatchedParenthesis                           // IndexError: pop from an empty deque
    | EmptyRegex                                     // IndexError: new_regex[0] or new_regex[-1] of ''

  /** A capture group: where it lies in the text and its pattern in the regex. */
  datatype Span = Span(start: int, end: int, pattern: string)

  // ---------------------------------------------------------------------
  // verify_regex and create_matching_everything_regex
  // ---------------------------------------------------------------------

  /** The groups of the anchored match, or NotMatchingRegex when there is none. */
  function VerifyRegex(re: Re, regex: string, text: string): (r: Result<seq<string>, RegexError>)
    ensures r.Ok? <==> re.fullMatch(regex, text)
    ensures r.Ok? ==> r.value == re.groups(regex, text)
    ensures r.Err? ==> r.error == NotMatchingRegex(text, regex)
  {
    if re.fullMatch(regex, text) then Ok(re.groups(regex, text)) else Err(NotMatchingRegex(text, regex))
  }

  /** The catch-all pattern, whatever the text. */
  function CreateMatchingEverythingRegex(dateText: string): (r: string)
    ensures |r| == 2 && r[0] == '.' && r[1] == '*'
  {
    ".*"
  }

  // ---------------------------------------------------------------------
  // create_obvious_regex
  // ---------------------------------------------------------------------

  /** Membership in `special_characters`. */
  predicate IsSpecial(c: char) {
    c in {'.', '^', '$', '*', '+', '{', '}', '?', '[', ']', '|', '(', ')'}
  }

  /** `text.replace("\\", "\\\\")`. */
  function DoubleBackslashes(s: string): string {
    if s == [] then [] else (if s[0] == '\\' then "\\\\" else [s[0]]) + DoubleBackslashes(s[1..])
  }

  /** What the loop of create_obvious_regex appends for each character. */
  function EscapeSpecials(s: string): string {
    if s == [] then [] else (if IsSpecial(s[0]) then ['\\', s[0]] else [s[0]]) + EscapeSpecials(s[1..])
  }

  /** The regex create_obvious_regex returns: both passes of the source. */
  function ObviousRegex(text: string): string {
    EscapeSpecials(DoubleBackslashes(text))
  }

  /** What one character of the text becomes in its obvious regex. */
  function EscapeChar(c: char): string {
    if c == '\\' then "\\\\" else if IsSpecial(c) then ['\\', c] else [c]
  }

  lemma {:induction false} EscapeSpecialsConcat(a: string, b: string)
    ensures EscapeSpecials(a + b) == EscapeSpecials(a) + EscapeSpecials(b)
  {
    if a != [] {
      assert (a + b)[1..] == a[1..] + b;
      EscapeSpecialsConcat(a[1..], b);
    } else {
      assert a + b == b;
    }
  }

  lemma {:induction false} DoubleBackslashesConcat(a: string, b: string)
    ensures DoubleBackslashes(a + b) == DoubleBackslashes(a) + DoubleBackslashes(b)
  {
    if a != [] {
      assert (a + b)[1..] == a[1..] + b;
      DoubleBackslashesConcat(a[1..], b);
    } else {
      assert a + b == b;
    }
  }

  /** The two passes act on each character separately. */
  lemma ObviousCons(c: char, s: string)
    ensures ObviousRegex([c] + s) == EscapeChar(c) + ObviousRegex(s)
  {
    assert ([c] + s)[1..] == s;
    var d := if c == '\\' then "\\\\" else [c];
    assert DoubleBackslashes([c] + s) == d + DoubleBackslashes(s);
    EscapeSpecialsConcat(d, DoubleBackslashes(s));
    if c == '\\' {
      assert EscapeSpecials(d) == "\\\\" by {
        assert d == ['\\'] + ['\\'];
        EscapeSpecialsConcat(['\\'], ['\\']);
      }
    } else {
      assert EscapeSpecials(d) == EscapeSpecials([c] + []);
    }
  }

  /** The obvious regex of a concatenation is the concatenation of obvious regexes. */
  lemma {:induction false} ObviousConcat(a: string, b: string)
    ensures ObviousRegex(a + b) == ObviousRegex(a) + ObviousRegex(b)
  {
    DoubleBackslashesConcat(a, b);
    EscapeSpecialsConcat(DoubleBackslashes(a), DoubleBackslashes(b));
  }

  /** The loop of create_obvious_regex over the backslash-doubled text. */
  method CreateObviousRegex(text: string) returns (regex: string)
    ensures regex == ObviousRegex(text)
  {
    var doubled := DoubleBackslashes(text);
    regex := "";
    var i := 0;
    while i < |doubled|
      invariant 0 <= i <= |doubled|
      invariant regex == EscapeSpecials(doubled[..i])
    {
      var c := doubled[i];
      if IsSpecial(c) {
        regex := regex + "\\";
      }
      regex := regex + [c];
      assert doubled[..i + 1] == doubled[..i] + [c];
      EscapeSpecialsConcat(doubled[..i], [c]);
      i := i + 1;
    }
    assert doubled[..i] == doubled;
  }

  function CountBackslashes(s: string): nat {
    if s == [] then 0 else (if s[0] == '\\' then 1 else 0) + CountBackslashes(s[1..])
  }

  function CountSpecials(s: string): nat {
    if s == [] then 0 else (if IsSpecial(s[0]) then 1 else 0) + CountSpecials(s[1..])
  }

  /** One extra character for every backslash and every special character. */
  lemma {:induction false} ObviousRegexLength(s: string)
    ensures |ObviousRegex(s)| == |s| + CountBackslashes(s) + CountSpecials(s)
  {
    if s != [] {
      assert s == [s[0]] + s[1..];
      ObviousCons(s[0], s[1..]);
      ObviousRegexLength(s[1..]);
    }
  }

  /** Drops the backslash of every escape pair: the inverse of ObviousRegex. */
  function Unescape(r: string): string {
    if r == [] then []
    else if r[0] == '\\' && |r| >= 2 then [r[1]] + Unescape(r[2..])
    else [r[0]] + Unescape(r[1..])
  }

  /** Unescape undoes what one character became. */
  lemma UnescapeCons(c: char, rest: string)
    ensures Unescape(EscapeChar(c) + rest) == [c] + Unescape(rest)
  {
    var r := EscapeChar(c) + rest;
    if c == '\\' || IsSpecial(c) {
      assert r[0] == '\\' && r[1] == c && r[2..] == rest;
    } else {
      assert r[0] == c && r[1..] == rest;
    }
  }

  lemma {:induction false} UnescapeObvious(s: string)
    ensures Unescape(ObviousRegex(s)) == s
  {
    if s != [] {
      var c, t := s[0], s[1..];
      assert s == [c] + t;
      ObviousCons(c, t);
      UnescapeCons(c, ObviousRegex(t));
      UnescapeObvious(t);
    }
  }

  /** Distinct texts have distinct obvious regexes. */
  lemma ObviousRegexInjective(a: string, b: string)
    requires ObviousRegex(a) == ObviousRegex(b)
    ensures a == b
  {
    UnescapeObvious(a);
    UnescapeObvious(b);
  }

  /** A text without special characters and backslashes is its own regex. */
  lemma {:induction false} ObviousRegexOfPlainText(s: string)
    requires forall i :: 0 <= i < |s| ==> !IsSpecial(s[i]) && s[i] != '\\'
    ensures ObviousRegex(s) == s
  {
    if s != [] {
      assert s == [s[0]] + s[1..];
      ObviousCons(s[0], s[1..]);
      ObviousRegexOfPlainText(s[1..]);
    }
  }

  // ---------------------------------------------------------------------
  // create_date_regex
  // ---------------------------------------------------------------------

  predicate IsAscii(c: char) { c as int < 128 }

  predicate IsLetter(c: char) { 'a' <= c <= 'z' || 'A' <= c <= 'Z' }

  predicate IsDigit(c: char) { '0' <= c <= '9' }

  /** `\s` on ASCII: space, tab to carriage return, and the separators 0x1c-0x1f. */
  predicate IsSpace(c: char) { c == ' ' || 9 <= c as int <= 13 || 28 <= c as int <= 31 }

  /** `\w` on ASCII. */
  predicate IsWordChar(c: char) { IsLetter(c) || IsDigit(c) || c == '_' }

  /** The alternatives of `group_pattern`, in the order they are tried. */
  datatype RunKind = Letters | Digits | Spaces | NonWord

  predicate InKind(c: char, k: RunKind) {
    match k
    case Letters => IsLetter(c)
    case Digits => IsDigit(c)
    case Spaces => IsSpace(c)
    case NonWord => !IsWordChar(c)
  }

  /** The first alternative of `group_pattern` that matches at this character, if any. */
  function FirstAlternative(c: char): (r: Option<RunKind>)
    ensures r.Some? ==> InKind(c, r.value)
    ensures r.None? <==> c == '_'
  {
    if IsLetter(c) then Some(Letters)
    else if IsDigit(c) then Some(Digits)
    else if IsSpace(c) then Some(Spaces)
    else if !IsWordChar(c) then Some(NonWord)
    else None
  }

  /** Length of the greedy match of one alternative at the start of s. */
  function RunLength(s: string, k: RunKind): (n: nat)
    ensures n <= |s|
    ensures forall i :: 0 <= i < n ==> InKind(s[i], k)
    ensures n < |s| ==> !InKind(s[n], k)
    ensures s != [] && InKind(s[0], k) ==> n >= 1
  {
    if s == [] || !InKind(s[0], k) then 0 else 1 + RunLength(s[1..], k)
  }

  /** One match of `group_pattern.finditer`. */
  datatype Token = Token(kind: RunKind, text: string)

  /** The matches of `group_pattern.finditer`: a character no alternative matches is skipped. */
  function Tokenize(s: string): seq<Token>
    decreases |s|
  {
    if s == [] then []
    else match FirstAlternative(s[0])
      case None => Tokenize(s[1..])
      case Some(k) =>
        var n := RunLength(s, k);
        [Token(k, s[..n])] + Tokenize(s[n..])
  }

  /** The repetition count of a digit run. */
  function RepetitionCount(length: nat): string {
    if length <= 2 then "{1,2}" else if length == 4 then "{4}" else "+"
  }

  /** What one match contributes, decided by its first character as in the source. */
  function Piece(run: string): string {
    if run != [] && IsLetter(run[0]) then "[a-zA-Z]+"
    else if run != [] && IsDigit(run[0]) then "[0-9]" + RepetitionCount(|run|)
    else ObviousRegex(run)
  }

  function Render(ts: seq<Token>): string {
    if ts == [] then [] else Piece(ts[0].text) + Render(ts[1..])
  }

  /** Every match is a non-empty run of characters of its alternative. */
  lemma {:induction false} TokenizeRuns(s: string)
    decreases |s|
    ensures forall i :: 0 <= i < |Tokenize(s)| ==> Tokenize(s)[i].text != []
    ensures forall i, j :: 0 <= i < |Tokenize(s)| && 0 <= j < |Tokenize(s)[i].text| ==>
              InKind(Tokenize(s)[i].text[j], Tokenize(s)[i].kind)
  {
    if s != [] {
      match FirstAlternative(s[0])
      case None => TokenizeRuns(s[1..]);
      case Some(k) =>
        var n := RunLength(s, k);
        TokenizeRuns(s[n..]);
        assert Tokenize(s) == [Token(k, s[..n])] + Tokenize(s[n..]);
    }
  }

  function DateRegex(s: string): string {
    Render(Tokenize(s))
  }

  /** One step of create_date_regex: skip an unmatched character or emit one piece. */
  lemma DateRegexUnfold(s: string, k: Option<RunKind>)
    requires s != [] && k == FirstAlternative(s[0])
    ensures k.None? ==> DateRegex(s) == DateRegex(s[1..])
    ensures k.Some? ==> var n := RunLength(s, k.value);
              DateRegex(s) == Piece(s[..n]) + DateRegex(s[n..])
  {
    if k.Some? {
      var n := RunLength(s, k.value);
      assert Tokenize(s) == [Token(k.value, s[..n])] + Tokenize(s[n..]);
      assert Tokenize(s)[1..] == Tokenize(s[n..]);
    }
  }

  function Texts(ts: seq<Token>): string {
    if ts == [] then [] else ts[0].text + Texts(ts[1..])
  }

  function RemoveUnderscores(s: string): string {
    if s == [] then [] else (if s[0] == '_' then [] else [s[0]]) + RemoveUnderscores(s[1..])
  }

  lemma {:induction false} RemoveUnderscoresConcat(a: string, b: string)
    ensures RemoveUnderscores(a + b) == RemoveUnderscores(a) + RemoveUnderscores(b)
  {
    if a != [] {
      assert (a + b)[1..] == a[1..] + b;
      RemoveUnderscoresConcat(a[1..], b);
    } else {
      assert a + b == b;
    }
  }

  lemma {:induction false} NoUnderscoreUnchanged(s: string)
    requires forall i :: 0 <= i < |s| ==> s[i] != '_'
    ensures RemoveUnderscores(s) == s
  {
    if s != [] {
      NoUnderscoreUnchanged(s[1..]);
    }
  }

  /** The matches cover the text exactly, except that every '_' is dropped. */
  lemma {:induction false} TokenizeCoversText(s: string)
    decreases |s|
    ensures Texts(Tokenize(s)) == RemoveUnderscores(s)
  {
    if s != [] {
      match FirstAlternative(s[0])
      case None =>
        TokenizeCoversText(s[1..]);
      case Some(k) =>
        var n := RunLength(s, k);
        TokenizeCoversText(s[n..]);
        assert s == s[..n] + s[n..];
        RemoveUnderscoresConcat(s[..n], s[n..]);
        NoUnderscoreUnchanged(s[..n]);
        assert Tokenize(s)[1..] == Tokenize(s[n..]);
    }
  }

  /** The body of the loop of create_date_regex for one match. */
  method RunRegex(run: string) returns (piece: string)
    requires run != []
    ensures piece == Piece(run)
  {
    var first := run[0];
    if IsLetter(first) {
      piece := "[a-zA-Z]+";
    } else if IsDigit(first) {
      var length := |run|;
      var repetitionCount := "+";
      if length <= 2 {
        repetitionCount := "{1,2}";
      } else if length == 4 {
        repetitionCount := "{4}";
      }
      piece := "[0-9]" + repetitionCount;
    } else {
      piece := CreateObviousRegex(run);
    }
  }

  /** The loop invariant of create_date_regex survives skipping an unmatched character. */
  lemma DateRegexSkip(text: string, pos: nat, acc: string)
    requires pos < |text| && FirstAlternative(text[pos]).None?
    requires acc + DateRegex(text[pos..]) == DateRegex(text)
    ensures acc + DateRegex(text[pos + 1..]) == DateRegex(text)
  {
    var rest := text[pos..];
    DateRegexUnfold(rest, FirstAlternative(rest[0]));
    assert rest[1..] == text[pos + 1..];
  }

  lemma AppendStep(acc: string, whole: string, rest: string, piece: string, tail: string)
    requires acc + rest == whole && rest == piece + tail
    ensures (acc + piece) + tail == whole
  {
    assert acc + (piece + tail) == (acc + piece) + tail;
  }

  /** The match of `group_pattern` at pos, and the date regex from there, as slices of the text. */
  lemma MatchAt(text: string, pos: nat, next: nat)
    requires pos < |text| && FirstAlternative(text[pos]).Some?
    requires next == pos + RunLength(text[pos..], FirstAlternative(text[pos]).value)
    ensures pos < next <= |text|
    ensures DateRegex(text[pos..]) == Piece(text[pos..next]) + DateRegex(text[next..])
  {
    var rest := text[pos..];
    var k := FirstAlternative(text[pos]);
    assert rest[0] == text[pos];
    var length := RunLength(rest, k.value);
    assert 1 <= length <= |rest|;
    DateRegexUnfold(rest, k);
    SplitSuffix(text, pos, next);
  }

  lemma SplitSuffix(text: string, pos: nat, next: nat)
    requires pos <= next <= |text|
    ensures text[pos..][..next - pos] == text[pos..next]
    ensures text[pos..][next - pos..] == text[next..]
  {
  }

  /** The regex of the match of `group_pattern` that starts at pos, and where the match ends. */
  method NextPiece(text: string, pos: nat) returns (piece: string, next: nat)
    requires pos < |text| && FirstAlternative(text[pos]).Some?
    ensures pos < next <= |text|
    ensures piece == Piece(text[pos..next])
    ensures DateRegex(text[pos..]) == piece + DateRegex(text[next..])
  {
    next := pos + RunLength(text[pos..], FirstAlternative(text[pos]).value);
    MatchAt(text, pos, next);
    piece := RunRegex(text[pos..next]);
  }

  /** The loop of create_date_regex over the matches of `group_pattern`. */
  method CreateDateRegex(dateText: string) returns (dateRegex: string)
    requires forall i :: 0 <= i < |dateText| ==> IsAscii(dateText[i])
    ensures dateRegex == DateRegex(dateText)
  {
    dateRegex := "";
    var pos := 0;
    assert dateText[pos..] == dateText;
    while pos < |dateText|
      invariant 0 <= pos <= |dateText|
      invariant dateRegex + DateRegex(dateText[pos..]) == DateRegex(dateText)
    {
      var alternative := FirstAlternative(dateText[pos]);
      if alternative.None? {
        DateRegexSkip(dateText, pos, dateRegex);
        pos := pos + 1;
      } else {
        var piece, next := NextPiece(dateText, pos);
        AppendStep(dateRegex, DateRegex(dateText), DateRegex(dateText[pos..]), piece, DateRegex(dateText[next..]));
        dateRegex := dateRegex + piece;
        pos := next;
      }
    }
    assert dateText[pos..] == [];
  }

  /** A single non-word character (neither special nor a backslash) before a word character. */
  lemma NonWordCharThen(c: char, rest: string)
    requires !IsWordChar(c) && !IsSpace(c) && !IsSpecial(c) && c != '\\'
    requires rest != [] && IsWordChar(rest[0])
    ensures DateRegex([c] + rest) == [c] + DateRegex(rest)
  {
    var s := [c] + rest;
    assert RunLength(s, NonWord) == 1;
    assert s[..1] == [c] && s[1..] == rest;
    DateRegexUnfold(s, Some(NonWord));
    ObviousRegexOfPlainText([c]);
  }

  /** A letter run followed by a character that is not a letter. */
  lemma LettersThen(run: string, rest: string)
    requires run != [] && forall i :: 0 <= i < |run| ==> IsLetter(run[i])
    requires rest != [] && !IsLetter(rest[0])
    ensures DateRegex(run + rest) == "[a-zA-Z]+" + DateRegex(rest)
  {
    var s := run + rest;
    assert RunLength(s, Letters) == |run|;
    assert s[..|run|] == run && s[|run|..] == rest;
    DateRegexUnfold(s, Some(Letters));
  }

  /** A digit run followed by a character that is not a digit. */
  lemma DigitsThen(run: string, rest: string)
    requires run != [] && forall i :: 0 <= i < |run| ==> IsDigit(run[i])
    requires rest != [] && !IsDigit(rest[0])
    ensures DateRegex(run + rest) == "[0-9]" + RepetitionCount(|run|) + DateRegex(rest)
  {
    var s := run + rest;
    assert RunLength(s, Digits) == |run|;
    assert s[..|run|] == run && s[|run|..] == rest;
    DateRegexUnfold(s, Some(Digits));
  }

  lemma SlashYearJoin()
    ensures ['/'] + "[0-9]{4}" == "/[0-9]{4}"
  {
  }

  lemma SlashYear(year: string)
    requires |year| == 4 && (forall i :: 0 <= i < |year| ==> IsDigit(year[i]))
    ensures DateRegex(['/'] + year) == "/[0-9]{4}"
  {
    DigitRunRegex(year);
    NonWordCharThen('/', year);
    SlashYearJoin();
  }

  lemma SlashMonthYearJoin()
    ensures ['/'] + ("[a-zA-Z]+" + "/[0-9]{4}") == "/[a-zA-Z]+/[0-9]{4}"
  {
  }

  lemma SlashMonthYear(month: string, year: string)
    requires month != [] && (forall i :: 0 <= i < |month| ==> IsLetter(month[i]))
    requires |year| == 4 && (forall i :: 0 <= i < |year| ==> IsDigit(year[i]))
    ensures DateRegex(['/'] + (month + (['/'] + year))) == "/[a-zA-Z]+/[0-9]{4}"
  {
    var y := ['/'] + year;
    var my := month + y;
    SlashYear(year);
    assert y[0] == '/';
    LettersThen(month, y);
    assert my[0] == month[0];
    NonWordCharThen('/', my);
    SlashMonthYearJoin();
  }

  /** A two-digit day before a slash. */
  lemma TwoDigitsThenSlash(day: string, rest: string)
    requires |day| == 2 && (forall i :: 0 <= i < |day| ==> IsDigit(day[i]))
    requires rest != [] && rest[0] == '/'
    ensures DateRegex(day + rest) == "[0-9]{1,2}" + DateRegex(rest)
  {
    DigitsThen(day, rest);
  }

  lemma SlashJoin(day: string, month: string, year: string)
    ensures day + "/" + month + "/" + year == day + (['/'] + (month + (['/'] + year)))
  {
  }

  lemma DayMonthYearJoin()
    ensures "[0-9]{1,2}" + "/[a-zA-Z]+/[0-9]{4}" == "[0-9]{1,2}/[a-zA-Z]+/[0-9]{4}"
  {
  }

  /** Any two-digit day, month name and four-digit year, separated by slashes. */
  lemma DayMonthYearRegex(day: string, month: string, year: string)
    requires |day| == 2 && (forall i :: 0 <= i < |day| ==> IsDigit(day[i]))
    requires month != [] && (forall i :: 0 <= i < |month| ==> IsLetter(month[i]))
    requires |year| == 4 && (forall i :: 0 <= i < |year| ==> IsDigit(year[i]))
    ensures DateRegex(day + "/" + month + "/" + year) == "[0-9]{1,2}/[a-zA-Z]+/[0-9]{4}"
  {
    SlashJoin(day, month, year);
    TwoDigitsThenSlash(day, ['/'] + (month + (['/'] + year)));
    SlashMonthYear(month, year);
    DayMonthYearJoin();
  }

  lemma ExampleJoin()
    ensures "23" + "/" + "March" + "/" + "2016" == "23/March/2016"
  {
  }

  /** The documented example: "23/March/2016". */
  lemma DateRegexExample()
    ensures DateRegex("23/March/2016") == "[0-9]{1,2}/[a-zA-Z]+/[0-9]{4}"
  {
    DayMonthYearRegex("23", "March", "2016");
    ExampleJoin();
  }

  /** A run of n digits becomes `[0-9]{1,2}`, `[0-9]{4}` or `[0-9]+`. */
  lemma DigitRunRegex(s: string)
    requires s != [] && forall i :: 0 <= i < |s| ==> IsDigit(s[i])
    ensures DateRegex(s) == "[0-9]" + RepetitionCount(|s|)
    ensures |s| <= 2 ==> DateRegex(s) == "[0-9]{1,2}"
    ensures |s| == 4 ==> DateRegex(s) == "[0-9]{4}"
    ensures |s| != 4 && |s| > 2 ==> DateRegex(s) == "[0-9]+"
  {
    assert RunLength(s, Digits) == |s|;
    assert s[..|s|] == s;
    assert s[|s|..] == [];
    DateRegexUnfold(s, Some(Digits));
  }

  /** A run of letters becomes `[a-zA-Z]+`, whatever its length. */
  lemma LetterRunRegex(s: string)
    requires s != [] && forall i :: 0 <= i < |s| ==> IsLetter(s[i])
    ensures DateRegex(s) == "[a-zA-Z]+"
  {
    assert RunLength(s, Letters) == |s|;
    assert s[..|s|] == s;
    assert s[|s|..] == [];
    DateRegexUnfold(s, Some(Letters));
  }

  /** An underscore, which no alternative matches, contributes nothing. */
  lemma LeadingUnderscoreDropped(s: string)
    ensures DateRegex(['_'] + s) == DateRegex(s)
  {
    assert (['_'] + s)[1..] == s;
  }

  /**
   * A text with no letter, digit or underscore is escaped literally: how it is
   * split into whitespace runs and other runs does not matter.
   */
  lemma {:induction false} NonWordTextRegex(s: string)
    requires forall i :: 0 <= i < |s| ==> !IsWordChar(s[i])
    decreases |s|
    ensures DateRegex(s) == ObviousRegex(s)
  {
    if s != [] {
      var k := FirstAlternative(s[0]).value;
      var n := RunLength(s, k);
      NonWordTextRegex(s[n..]);
      assert s == s[..n] + s[n..];
      ObviousConcat(s[..n], s[n..]);
      DateRegexUnfold(s, FirstAlternative(s[0]));
    }
  }

  // ---------------------------------------------------------------------
  // The parenthesis scan of group_spans_from_regex
  // ---------------------------------------------------------------------

  /** An unescaped '(' that the scan (which starts at position 1) looks at. */
  predicate IsOpenAt(regex: string, pos: int) {
    1 <= pos < |regex| && regex[pos - 1] != '\\' && regex[pos] == '('
  }

  /** An unescaped ')' that the scan looks at. */
  predicate IsCloseAt(regex: string, pos: int) {
    1 <= pos < |regex| && regex[pos - 1] != '\\' && regex[pos] == ')'
  }

  /**
   * The scan from position pos on, with the parenthesis stack and the ranges found so
   * far: a ')' is paired with the most recent unmatched '(' and fails on an empty stack.
   */
  function Scan(regex: string, pos: nat, stack: seq<nat>, ranges: seq<(nat, nat)>): (r: Result<seq<(nat, nat)>, RegexError>)
    decreases |regex| - pos
    ensures r.Err? ==> r.error == UnmatchedParenthesis
    ensures r.Ok? ==> |ranges| <= |r.value| && r.value[..|ranges|] == ranges
  {
    if pos >= |regex| then Ok(ranges)
    else if IsOpenAt(regex, pos) then Scan(regex, pos + 1, stack + [pos], ranges)
    else if IsCloseAt(regex, pos) then
      if stack == [] then Err(UnmatchedParenthesis)
      else Scan(regex, pos + 1, stack[..|stack| - 1], ranges + [(stack[|stack| - 1], pos)])
    else Scan(regex, pos + 1, stack, ranges)
  }

  function GroupRanges(regex: string): Result<seq<(nat, nat)>, RegexError> {
    Scan(regex, 1, [], [])
  }

  lemma ScanOpenStep(regex: string, pos: nat, stack: seq<nat>, ranges: seq<(nat, nat)>)
    requires IsOpenAt(regex, pos)
    ensures Scan(regex, pos, stack, ranges) == Scan(regex, pos + 1, stack + [pos], ranges)
  {
  }

  lemma ScanCloseStep(regex: string, pos: nat, stack: seq<nat>, ranges: seq<(nat, nat)>)
    requires IsCloseAt(regex, pos)
    ensures stack == [] ==> Scan(regex, pos, stack, ranges) == Err(UnmatchedParenthesis)
    ensures stack != [] ==>
              Scan(regex, pos, stack, ranges)
              == Scan(regex, pos + 1, stack[..|stack| - 1], ranges + [(stack[|stack| - 1], pos)])
  {
    assert !IsOpenAt(regex, pos);
  }

  lemma ScanOtherStep(regex: string, pos: nat, stack: seq<nat>, ranges: seq<(nat, nat)>)
    requires pos < |regex| && !IsOpenAt(regex, pos) && !IsCloseAt(regex, pos)
    ensures Scan(regex, pos, stack, ranges) == Scan(regex, pos + 1, stack, ranges)
  {
  }

  /** The deque loop of group_spans_from_regex. */
  method GroupRangesInRegex(regex: string) returns (res: Result<seq<(nat, nat)>, RegexError>)
    ensures res == GroupRanges(regex)
  {
    var stack: seq<nat> := [];
    var ranges: seq<(nat, nat)> := [];
    var pos := 1;
    while pos < |regex|
      invariant 1 <= pos
      invariant Scan(regex, pos, stack, ranges) == GroupRanges(regex)
    {
      if regex[pos - 1] != '\\' && regex[pos] == '(' {
        ScanOpenStep(regex, pos, stack, ranges);
        stack := stack + [pos];
      } else if regex[pos - 1] != '\\' && regex[pos] == ')' {
        ScanCloseStep(regex, pos, stack, ranges);
        if stack == [] {
          return Err(UnmatchedParenthesis);
        }
        ranges := ranges + [(stack[|stack| - 1], pos)];
        stack := stack[..|stack| - 1];
      } else {
        ScanOtherStep(regex, pos, stack, ranges);
      }
      pos := pos + 1;
    }
    res := Ok(ranges);
  }

  /** A range joins an unescaped '(' to a later unescaped ')'. */
  predicate WellFormedRange(regex: string, r: (nat, nat)) {
    IsOpenAt(regex, r.0) && IsCloseAt(regex, r.1) && r.0 < r.1
  }

  /** Two ranges are disjoint or one holds the other. */
  predicate Nested(a: (nat, nat), b: (nat, nat)) {
    a.0 < b.0 < a.1 ==> b.1 < a.1
  }

  /** What holds of the scan's state at every position. */
  predicate ScanInv(regex: string, pos: nat, stack: seq<nat>, ranges: seq<(nat, nat)>) {
    StackInv(regex, pos, stack) && RangesInv(regex, pos, ranges) && ApartFromStack(ranges, stack)
  }

  /** The stack holds unescaped '(' already passed, in increasing position. */
  predicate StackInv(regex: string, pos: nat, stack: seq<nat>) {
    && (forall j :: 0 <= j < |stack| ==> IsOpenAt(regex, stack[j]) && stack[j] < pos)
    && (forall j, k :: 0 <= j < k < |stack| ==> stack[j] < stack[k])
  }

  /** The ranges found so far are good and lie before pos. */
  predicate RangesInv(regex: string, pos: nat, ranges: seq<(nat, nat)>) {
    && (forall i :: 0 <= i < |ranges| ==> ranges[i].1 < pos)
    && GoodRanges(regex, ranges)
  }

  /** No range opens at a stacked '(', and a range that opens before one also closes before it. */
  predicate ApartFromStack(ranges: seq<(nat, nat)>, stack: seq<nat>) {
    forall i, j :: 0 <= i < |ranges| && 0 <= j < |stack| ==>
      ranges[i].0 != stack[j] && (ranges[i].0 < stack[j] ==> ranges[i].1 < stack[j])
  }

  /** What the ranges of a successful scan satisfy. */
  predicate GoodRanges(regex: string, ranges: seq<(nat, nat)>) {
    && (forall i :: 0 <= i < |ranges| ==> WellFormedRange(regex, ranges[i]))
    && (forall i, k :: 0 <= i < k < |ranges| ==> ranges[i].1 < ranges[k].1)
    && (forall i, k :: 0 <= i < |ranges| && 0 <= k < |ranges| && i != k ==> ranges[i].0 != ranges[k].0)
    && (forall i, k :: 0 <= i < |ranges| && 0 <= k < |ranges| ==> Nested(ranges[i], ranges[k]))
  }

  lemma ScanInvOpen(regex: string, pos: nat, stack: seq<nat>, ranges: seq<(nat, nat)>)
    requires ScanInv(regex, pos, stack, ranges) && IsOpenAt(regex, pos)
    ensures ScanInv(regex, pos + 1, stack + [pos], ranges)
  {
  }

  lemma ScanInvClose(regex: string, pos: nat, stack: seq<nat>, ranges: seq<(nat, nat)>)
    requires ScanInv(regex, pos, stack, ranges) && IsCloseAt(regex, pos) && stack != []
    ensures ScanInv(regex, pos + 1, stack[..|stack| - 1], ranges + [(stack[|stack| - 1], pos)])
  {
    CloseKeepsStack(regex, pos, stack);
    CloseKeepsRanges(regex, pos, stack, ranges);
    CloseKeepsApart(regex, pos, stack, ranges);
  }

  lemma CloseKeepsStack(regex: string, pos: nat, stack: seq<nat>)
    requires StackInv(regex, pos, stack) && stack != []
    ensures StackInv(regex, pos + 1, stack[..|stack| - 1])
  {
  }

  lemma CloseKeepsRanges(regex: string, pos: nat, stack: seq<nat>, ranges: seq<(nat, nat)>)
    requires StackInv(regex, pos, stack) && RangesInv(regex, pos, ranges) && ApartFromStack(ranges, stack)
    requires IsCloseAt(regex, pos) && stack != []
    ensures RangesInv(regex, pos + 1, ranges + [(stack[|stack| - 1], pos)])
  {
    var top := stack[|stack| - 1];
    var ranges' := ranges + [(top, pos)];
    var n := |ranges|;
    assert forall i :: 0 <= i < n ==> ranges'[i] == ranges[i];
    assert ranges'[n] == (top, pos);
    assert forall i :: 0 <= i < n ==> ranges[i].0 != top && (ranges[i].0 < top ==> ranges[i].1 < top);
  }

  lemma CloseKeepsApart(regex: string, pos: nat, stack: seq<nat>, ranges: seq<(nat, nat)>)
    requires StackInv(regex, pos, stack) && ApartFromStack(ranges, stack) && stack != []
    ensures ApartFromStack(ranges + [(stack[|stack| - 1], pos)], stack[..|stack| - 1])
  {
    var top := stack[|stack| - 1];
    var stack' := stack[..|stack| - 1];
    assert forall j :: 0 <= j < |stack'| ==> stack'[j] == stack[j] && stack'[j] < top;
  }

  lemma ScanInvOther(regex: string, pos: nat, stack: seq<nat>, ranges: seq<(nat, nat)>)
    requires ScanInv(regex, pos, stack, ranges)
    ensures ScanInv(regex, pos + 1, stack, ranges)
  {
  }

  lemma {:induction false} ScanShape(regex: string, pos: nat, stack: seq<nat>, ranges: seq<(nat, nat)>)
    requires ScanInv(regex, pos, stack, ranges)
    requires Scan(regex, pos, stack, ranges).Ok?
    decreases |regex| - pos
    ensures GoodRanges(regex, Scan(regex, pos, stack, ranges).value)
  {
    if pos >= |regex| {
    } else if IsOpenAt(regex, pos) {
      ScanInvOpen(regex, pos, stack, ranges);
      ScanShape(regex, pos + 1, stack + [pos], ranges);
    } else if IsCloseAt(regex, pos) {
      ScanInvClose(regex, pos, stack, ranges);
      ScanShape(regex, pos + 1, stack[..|stack| - 1], ranges + [(stack[|stack| - 1], pos)]);
    } else {
      ScanInvOther(regex, pos, stack, ranges);
      ScanShape(regex, pos + 1, stack, ranges);
    }
  }

  /**
   * Every group range of a successful scan joins an unescaped '(' to a later
   * unescaped ')', ranges come in the order of their ')', no two share a '(',
   * and any two are disjoint or nested.
   */
  lemma GroupRangesWellFormed(regex: string)
    requires GroupRanges(regex).Ok?
    ensures GoodRanges(regex, GroupRanges(regex).value)
  {
    ScanShape(regex, 1, [], []);
  }

  /** Unescaped '(' minus unescaped ')' in positions 1 .. n-1. */
  function Balance(regex: string, n: int): int
    decreases n
  {
    if n <= 1 then 0
    else Balance(regex, n - 1) + (if IsOpenAt(regex, n - 1) then 1 else if IsCloseAt(regex, n - 1) then -1 else 0)
  }

  lemma {:induction false} ScanFailsIff(regex: string, pos: nat, stack: seq<nat>, ranges: seq<(nat, nat)>)
    requires 1 <= pos
    requires |stack| == Balance(regex, pos)
    decreases |regex| - pos
    ensures Scan(regex, pos, stack, ranges).Err? <==> exists n :: pos < n <= |regex| && Balance(regex, n) < 0
  {
    if pos >= |regex| {
    } else if IsOpenAt(regex, pos) {
      ScanFailsIff(regex, pos + 1, stack + [pos], ranges);
    } else if IsCloseAt(regex, pos) {
      if stack == [] {
        assert Balance(regex, pos + 1) < 0;
      } else {
        ScanFailsIff(regex, pos + 1, stack[..|stack| - 1], ranges + [(stack[|stack| - 1], pos)]);
      }
    } else {
      ScanFailsIff(regex, pos + 1, stack, ranges);
    }
  }

  /** The scan fails exactly when some prefix closes more groups than it opened. */
  lemma GroupRangesFailIff(regex: string)
    ensures GroupRanges(regex).Err? <==> exists n :: 1 < n <= |regex| && Balance(regex, n) < 0
  {
    ScanFailsIff(regex, 1, [], []);
  }

  /** A successful scan closes a range at every unescaped ')' from pos on. */
  lemma {:induction false} ScanClosesEvery(regex: string, pos: nat, stack: seq<nat>, ranges: seq<(nat, nat)>)
    requires Scan(regex, pos, stack, ranges).Ok?
    decreases |regex| - pos
    ensures var rs := Scan(regex, pos, stack, ranges).value;
            forall p :: pos <= p && IsCloseAt(regex, p) ==> exists i :: |ranges| <= i < |rs| && rs[i].1 == p
  {
    if pos >= |regex| {
    } else if IsOpenAt(regex, pos) {
      ScanClosesEvery(regex, pos + 1, stack + [pos], ranges);
    } else if IsCloseAt(regex, pos) {
      var more := ranges + [(stack[|stack| - 1], pos)];
      ScanClosesEvery(regex, pos + 1, stack[..|stack| - 1], more);
      var rs := Scan(regex, pos, stack, ranges).value;
      assert rs[..|more|] == more;
      assert rs[|ranges|].1 == pos;
    } else {
      ScanClosesEvery(regex, pos + 1, stack, ranges);
    }
  }

  /**
   * Every unescaped ')' after position 0 closes a range of a successful scan; as the
   * closing positions strictly increase (GoodRanges), it closes exactly one.
   */
  lemma GroupRangesClosesEvery(regex: string)
    requires GroupRanges(regex).Ok?
    ensures forall p :: IsCloseAt(regex, p) ==>
              exists i :: 0 <= i < |GroupRanges(regex).value| && GroupRanges(regex).value[i].1 == p
  {
    ScanClosesEvery(regex, 1, [], []);
  }

  /** Position 0 is never looked at: a regex that opens its first group there fails. */
  lemma LeadingGroupIsMissed()
    ensures GroupRanges("(a)") == Err(UnmatchedParenthesis)
    ensures GroupRanges("^(a)") == Ok([(1, 3)])
  {
    var r := "^(a)";
    assert IsOpenAt(r, 1) && !IsOpenAt(r, 2) && !IsCloseAt(r, 2) && IsCloseAt(r, 3);
    assert Scan(r, 3, [1], []) == Ok([(1, 3)]);
  }

  // ---------------------------------------------------------------------
  // group_ranges_in_regex.sort() and the group regexes
  // ---------------------------------------------------------------------

  /** Python's tuple order on ranges. */
  predicate RangeLe(a: (nat, nat), b: (nat, nat)) {
    a.0 < b.0 || (a.0 == b.0 && a.1 <= b.1)
  }

  predicate SortedRanges(s: seq<(nat, nat)>) {
    forall i, j :: 0 <= i < j < |s| ==> RangeLe(s[i], s[j])
  }

  function InsertRange(r: (nat, nat), s: seq<(nat, nat)>): seq<(nat, nat)> {
    if s == [] then [r] else if RangeLe(r, s[0]) then [r] + s else [s[0]] + InsertRange(r, s[1..])
  }

  /** list.sort() on a list of ranges. */
  function SortRanges(s: seq<(nat, nat)>): seq<(nat, nat)> {
    if s == [] then [] else InsertRange(s[0], SortRanges(s[1..]))
  }

  lemma {:induction false} InsertRangeMultiset(r: (nat, nat), s: seq<(nat, nat)>)
    ensures multiset(InsertRange(r, s)) == multiset(s) + multiset{r}
  {
    if s != [] && !RangeLe(r, s[0]) {
      InsertRangeMultiset(r, s[1..]);
      assert s == [s[0]] + s[1..];
    }
  }

  lemma {:induction false} InsertRangeSorted(r: (nat, nat), s: seq<(nat, nat)>)
    requires SortedRanges(s)
    ensures SortedRanges(InsertRange(r, s))
  {
    if s != [] && !RangeLe(r, s[0]) {
      InsertRangeSorted(r, s[1..]);
      InsertRangeMultiset(r, s[1..]);
      var t := InsertRange(r, s[1..]);
      forall x | x in t ensures RangeLe(s[0], x) {
        assert x in multiset(t);
        assert x == r || x in s[1..];
      }
    }
  }

  /** Sorting keeps the ranges and orders them by their '(' position. */
  lemma {:induction false} SortRangesSorted(s: seq<(nat, nat)>)
    ensures multiset(SortRanges(s)) == multiset(s)
    ensures SortedRanges(SortRanges(s))
    ensures forall i, j :: 0 <= i < j < |SortRanges(s)| ==> SortRanges(s)[i].0 <= SortRanges(s)[j].0
  {
    if s != [] {
      SortRangesSorted(s[1..]);
      InsertRangeMultiset(s[0], SortRanges(s[1..]));
      InsertRangeSorted(s[0], SortRanges(s[1..]));
      assert s == [s[0]] + s[1..];
    }
  }

  /** The sorted ranges of a successful scan are still well formed. */
  lemma SortedRangesWellFormed(regex: string, s: seq<(nat, nat)>)
    requires forall i :: 0 <= i < |s| ==> WellFormedRange(regex, s[i])
    ensures forall i :: 0 <= i < |SortRanges(s)| ==> WellFormedRange(regex, SortRanges(s)[i])
  {
    SortRangesSorted(s);
    forall i | 0 <= i < |SortRanges(s)| ensures WellFormedRange(regex, SortRanges(s)[i]) {
      assert SortRanges(s)[i] in multiset(s);
    }
  }

  /** `[regex[start + 1:end] for start, end in group_ranges_in_regex]`. */
  function GroupRegexes(regex: string, ranges: seq<(nat, nat)>): seq<string>
    requires forall i :: 0 <= i < |ranges| ==> WellFormedRange(regex, ranges[i])
  {
    seq(|ranges|, i requires 0 <= i < |ranges| =>
      assert WellFormedRange(regex, ranges[i]); regex[ranges[i].0 + 1..ranges[i].1])
  }

  /** Each group regex is the text strictly between the parentheses of its range. */
  lemma GroupRegexesBetweenParens(regex: string, ranges: seq<(nat, nat)>, i: nat)
    requires forall k :: 0 <= k < |ranges| ==> WellFormedRange(regex, ranges[k])
    requires i < |ranges|
    ensures ranges[i].0 < ranges[i].1 < |regex|
    ensures regex[ranges[i].0] == '(' && regex[ranges[i].1] == ')'
    ensures |GroupRegexes(regex, ranges)| == |ranges|
    ensures regex[..ranges[i].0 + 1] + GroupRegexes(regex, ranges)[i] + regex[ranges[i].1..] == regex
  {
    var o, c := ranges[i].0, ranges[i].1;
    assert WellFormedRange(regex, ranges[i]);
    assert regex == regex[..o + 1] + regex[o + 1..c] + regex[c..];
  }

  // ---------------------------------------------------------------------
  // group_spans_from_regex
  // ---------------------------------------------------------------------

  /** `zip(group_ranges_in_text, group_regexes)` turned into spans. */
  function ZipSpans(textRanges: seq<(int, int)>, patterns: seq<string>): (r: seq<Span>)
    ensures |r| == if |textRanges| < |patterns| then |textRanges| else |patterns|
    ensures forall i :: 0 <= i < |r| ==> r[i] == Span(textRanges[i].0, textRanges[i].1, patterns[i])
  {
    if textRanges == [] || patterns == [] then []
    else [Span(textRanges[0].0, textRanges[0].1, patterns[0])] + ZipSpans(textRanges[1..], patterns[1..])
  }

  /**
   * Spans of the capture groups: their positions in the text, from the engine, paired in
   * order with their patterns, read off the regex source by the parenthesis scan.
   */
  method GroupSpansFromRegex(re: Re, regex: string, text: string) returns (res: Result<seq<Span>, RegexError>)
    ensures |regex| < 2 ==> res == Ok([])
    ensures |regex| >= 2 && !re.fullMatch(regex, text) ==> res == Err(NotMatchingRegex(text, regex))
    ensures |regex| >= 2 && re.fullMatch(regex, text) && GroupRanges(regex).Err? ==> res == Err(UnmatchedParenthesis)
    ensures |regex| >= 2 && re.fullMatch(regex, text) && GroupRanges(regex).Ok? ==>
              var ranges := SortRanges(GroupRanges(regex).value);
              var textRanges := re.groupSpans(regex, text);
              && res.Ok?
              && |res.value| == (if |textRanges| < |ranges| then |textRanges| else |ranges|)
              && forall i :: 0 <= i < |res.value| ==>
                   && res.value[i].start == textRanges[i].0
                   && res.value[i].end == textRanges[i].1
                   && ranges[i].0 < ranges[i].1 < |regex|
                   && res.value[i].pattern == regex[ranges[i].0 + 1..ranges[i].1]
  {
    if |regex| < 2 {
      return Ok([]);
    }
    var verified := VerifyRegex(re, regex, text);
    if verified.Err? {
      return Err(verified.error);
    }
    var textRanges := re.groupSpans(regex, text);
    var scanned := GroupRangesInRegex(regex);
    if scanned.Err? {
      return Err(scanned.error);
    }
    GroupRangesWellFormed(regex);
    var ranges := SortRanges(scanned.value);
    SortedRangesWellFormed(regex, scanned.value);
    var groupRegexes := GroupRegexes(regex, ranges);
    res := Ok(ZipSpans(textRanges, groupRegexes));
  }
}
