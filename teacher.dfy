/**
 * The teacher (whylog/teacher/__init__.py): the editor of one rule. It keeps
 * a parser per line, the registered constraints, and the index of links
 * between constraints and parameter groups, and it removes the constraints of
 * a line whenever the line goes away or its pattern is edited.
 */
module Teachers {
  import opened Wrappers
  import opened RegexText
  import opened Patterns
  import opened Externals
  import opened Collections
  import opened Constraints
  import opened ConstraintLinks
  import opened RegexMatches
  import opened RegexAssistants

  /** A line as the front end sends it. */
  datatype FrontInput = FrontInput(lineContent: string, offset: int, lineSource: string)

  datatype TeacherParser = TeacherParser(line: FrontInput, name: string, primaryKeys: seq<int>, logType: Option<string>)

  /** What `_prepare_user_parser` gathers for one line. */
  datatype UserParserIntent = UserParserIntent(
    name: string, pattern: string, logType: Option<string>, primaryKeys: seq<int>,
    paramGroups: Groups, lineContent: string, offset: int, lineSource: string)

  datatype UserRuleIntent = UserRuleIntent(effectId: Option<int>, parsers: map<int, UserParserIntent>, constraints: seq<Constraint>)

  datatype TeacherError = AttributeError

  /** The links a registered constraint gives rise to: one per group it relates. */
  function LinksOf(cid: int, c: Constraint): set<Link> {
    set lg | lg in c.groups :: Link(lg.0, lg.1, cid)
  }

  /** The links of a constraint in the order of its groups, as `register_constraint` adds them. */
  function LinkList(cid: int, c: Constraint): (s: seq<Link>)
    ensures |s| == |c.groups|
    ensures (set l | l in s) == LinksOf(cid, c)
  {
    var groups := c.groups;
    var s := seq(|groups|, i requires 0 <= i < |groups| => Link(groups[i].0, groups[i].1, cid));
    assert (set l | l in s) == LinksOf(cid, c) by {
      forall l | l in LinksOf(cid, c) ensures l in s {
        var lg :| lg in groups && l == Link(lg.0, lg.1, cid);
        var i :| 0 <= i < |groups| && groups[i] == lg;
        assert s[i] == l;
      }
    }
    s
  }

  /**
   * A parser for the line with the given name, the least group as its primary key (none
   * when there are no groups) and no log type.
   */
  predicate DefaultParser(p: TeacherParser, lineObject: FrontInput, groups: Groups, name: string) {
    && p.line == lineObject && p.logType == None && p.name == name
    && (groups == map[] ==> p.primaryKeys == [])
    && (groups != map[] ==> |p.primaryKeys| == 1 && p.primaryKeys[0] in groups &&
                            forall g :: g in groups ==> p.primaryKeys[0] <= g)
  }

  /** The names of the given parsers. */
  function NamesOf(parsers: map<int, TeacherParser>): set<string> {
    set k | k in parsers :: parsers[k].name
  }

  /**
   * The link index describes the constraint base exactly: every link names a registered
   * constraint that relates its group, and every group a registered constraint relates
   * is linked to it.
   */
  ghost predicate LinksExact(links: set<Link>, base: map<int, Constraint>) {
    && (forall l :: l in links ==> l.cid in base && (l.line, l.group) in base[l.cid].groups)
    && (forall cid :: cid in base ==> LinksOf(cid, base[cid]) <= links)
  }

  /** Removing some constraints together with all their links keeps the index exact. */
  lemma LinksExactWithout(links: set<Link>, base: map<int, Constraint>, cids: set<int>)
    requires LinksExact(links, base)
    ensures LinksExact((set l | l in links && l.cid !in cids), base - cids)
  {
    var links' := set l | l in links && l.cid !in cids;
    forall cid | cid in base - cids ensures LinksOf(cid, (base - cids)[cid]) <= links' {
      assert LinksOf(cid, base[cid]) <= links;
    }
  }

  /** Registering a constraint under a fresh id together with its links keeps the index exact. */
  lemma LinksExactWith(links: set<Link>, base: map<int, Constraint>, cid: int, c: Constraint)
    requires LinksExact(links, base) && cid !in base
    ensures LinksExact(links + LinksOf(cid, c), base[cid := c])
  {
    forall l | l in links + LinksOf(cid, c)
      ensures l.cid in base[cid := c] && (l.line, l.group) in base[cid := c][l.cid].groups
    {
      if l !in links {
        var lg :| lg in c.groups && l == Link(lg.0, lg.1, cid);
      }
    }
  }

  /** A link of the line names a constraint in the removed set. */
  lemma NoLinkOfLineLeft(links: set<Link>, line: int)
    ensures forall l :: l in links && l.cid !in ConstraintsOfLine(links, line) ==> l.line != line
  {
    forall l | l in links && l.line == line ensures l.cid in ConstraintsOfLine(links, line) { }
  }

  /** The list holds, position by position, the constraints of the ids, and the ids are each registered id once. */
  ghost predicate ListsBase(ids: seq<int>, constraints: seq<Constraint>, base: map<int, Constraint>) {
    && Distinct(ids) && |ids| == |constraints|
    && (forall cid :: cid in ids <==> cid in base)
    && (forall i :: 0 <= i < |ids| ==> ids[i] in base && constraints[i] == base[ids[i]])
  }

  class Teacher {
    const assistant: RegexAssistant
    const links: ConstraintLinksBase
    var parsers: map<int, TeacherParser>
    var constraintBase: map<int, Constraint>
    var effectId: Option<int>

    /** Parsers and the assistant's containers are kept for the same lines. */
    ghost predicate Wf()
      reads this, assistant, assistant.matches.Values
    {
      assistant.Valid() && parsers.Keys == assistant.matches.Keys
    }

    ghost predicate Valid()
      reads this, links, assistant, assistant.matches.Values
    {
      Wf() && LinksExact(links.links, constraintBase)
    }

    /** A teacher for a rule with no lines yet, working with an assistant that has none either. */
    constructor (assistant: RegexAssistant)
      requires assistant.Valid() && assistant.matches == map[]
      ensures this.assistant == assistant && Valid() && fresh(links)
      ensures parsers == map[] && constraintBase == map[] && effectId == None
    {
      this.assistant := assistant;
      links := new ConstraintLinksBase();
      parsers := map[];
      constraintBase := map[];
      effectId := None;
    }

    /** `_get_names_blacklist`: the names of all parsers. */
    function NamesBlacklist(): (names: set<string>)
      reads this
      ensures forall n :: n in names <==> exists k :: k in parsers && parsers[k].name == n
    {
      NamesOf(parsers)
    }

    /** Removes one constraint and all its links. */
    method RemoveConstraint(cid: int)
      requires cid in constraintBase
      modifies this, links
      ensures constraintBase == old(constraintBase) - {cid}
      ensures links.links == set l | l in old(links.links) && l.cid != cid
      ensures parsers == old(parsers) && effectId == old(effectId)
      ensures old(Valid()) ==> Valid()
    {
      ghost var before := links.links;
      links.RemoveLinksByConstraint(cid);
      constraintBase := constraintBase - {cid};
      if old(Valid()) {
        LinksExactWithout(before, old(constraintBase), {cid});
        assert links.links == set l | l in before && l.cid !in {cid};
      }
    }

    /**
     * Registers a constraint under the id, replacing (with its links) any constraint
     * registered under it before, and links every group it relates.
     */
    method RegisterConstraint(cid: int, c: Constraint)
      requires Valid()
      modifies this, links
      ensures Valid()
      ensures constraintBase == old(constraintBase)[cid := c]
      ensures links.links == (set l | l in old(links.links) && l.cid != cid) + LinksOf(cid, c)
      ensures parsers == old(parsers) && effectId == old(effectId)
    {
      if cid in constraintBase {
        RemoveConstraint(cid);
      } else {
        assert links.links == set l | l in old(links.links) && l.cid != cid;
      }
      LinksExactWith(links.links, constraintBase, cid, c);
      constraintBase := constraintBase[cid := c];
      links.AddLinks(LinkList(cid, c));
    }

    /**
     * `_remove_constraints_by_line`: deregisters every constraint linked to the line,
     * each once, with all its links.
     */
    method RemoveConstraintsByLine(line: int)
      requires Valid()
      modifies this, links
      ensures Valid()
      ensures constraintBase == old(constraintBase) - ConstraintsOfLine(old(links.links), line)
      ensures links.links == set l | l in old(links.links) && l.cid !in ConstraintsOfLine(old(links.links), line)
      ensures forall l :: l in links.links ==> l.line != line
      ensures parsers == old(parsers) && effectId == old(effectId)
    {
      ghost var links0 := links.links;
      ghost var base0 := constraintBase;
      var cids := links.RemoveLinksByLine(line);
      RemoveAll(cids, links0, base0, (set l | l in links0 && l.line != line));
      NoLinkOfLineLeft(links0, line);
    }

    /**
     * `_remove_constraint_by_group`: deregisters every constraint linked to the group,
     * each once, with all its links.
     */
    method RemoveConstraintByGroup(line: int, group: int)
      requires Valid()
      modifies this, links
      ensures Valid()
      ensures constraintBase == old(constraintBase) - ConstraintsOfGroup(old(links.links), line, group)
      ensures links.links ==
                set l | l in old(links.links) && l.cid !in ConstraintsOfGroup(old(links.links), line, group)
      ensures forall l :: l in links.links ==> !(l.line == line && l.group == group)
      ensures parsers == old(parsers) && effectId == old(effectId)
    {
      ghost var links0 := links.links;
      ghost var base0 := constraintBase;
      var cids := links.RemoveLinksByGroup(line, group);
      RemoveAll(cids, links0, base0, (set l | l in links0 && !(l.line == line && l.group == group)));
      forall l | l in links0 && l.line == line && l.group == group
        ensures l.cid in ConstraintsOfGroup(links0, line, group)
      {
      }
    }

    /**
     * The loop shared by the two cascades: the link index has already lost the links
     * selected by the cascade, and `cids` are their constraints, each once; every one
     * of them is removed.
     */
    method RemoveAll(cids: seq<int>, ghost links0: set<Link>, ghost base0: map<int, Constraint>, ghost kept: set<Link>)
      requires LinksExact(links0, base0) && Wf()
      requires constraintBase == base0 && links.links == kept
      requires kept <= links0
      requires forall l :: l in links0 && l !in kept ==> l.cid in cids
      requires forall c :: c in cids ==> exists l :: l in links0 && l !in kept && l.cid == c
      requires Distinct(cids)
      modifies this, links
      ensures Valid()
      ensures forall c :: c in cids <==> c in base0 && c !in constraintBase
      ensures constraintBase == base0 - set c | c in cids
      ensures links.links == set l | l in links0 && l.cid !in cids
      ensures parsers == old(parsers) && effectId == old(effectId)
    {
      for i := 0 to |cids|
        invariant Wf()
        invariant constraintBase == base0 - set j | 0 <= j < i :: cids[j]
        invariant links.links == set l | l in kept && l.cid !in cids[..i]
        invariant parsers == old(parsers) && effectId == old(effectId)
      {
        var c := cids[i];
        assert c !in cids[..i];
        assert c in cids;
        ghost var l :| l in links0 && l !in kept && l.cid == c;
        RemoveConstraint(c);
        assert cids[..i + 1] == cids[..i] + [c];
        assert (set j | 0 <= j < i + 1 :: cids[j]) == (set j | 0 <= j < i :: cids[j]) + {c};
      }
      assert cids[..|cids|] == cids;
      assert (set j | 0 <= j < |cids| :: cids[j]) == set c | c in cids;
      assert links.links == set l | l in links0 && l.cid !in cids;
      LinksExactWithout(links0, base0, set c | c in cids);
    }

    /**
     * Removes the line: its parser, its container, and every constraint linked to it,
     * so that no constraint relates any of its groups any more.
     */
    method RemoveLine(line: int)
      requires Valid() && line in parsers
      modifies this, links, assistant
      ensures Valid()
      ensures parsers == old(parsers) - {line}
      ensures assistant.matches == old(assistant.matches) - {line}
      ensures constraintBase == old(constraintBase) - ConstraintsOfLine(old(links.links), line)
      ensures forall l :: l in links.links ==> l.line != line
      ensures forall cid, lg :: cid in constraintBase && lg in constraintBase[cid].groups ==> lg.0 != line
      ensures effectId == old(effectId)
    {
      RemoveConstraintsByLine(line);
      assistant.RemoveLine(line);
      parsers := parsers - {line};
      NoConstraintOfLine(line);
    }

    /** With an exact index, when no link mentions the line no constraint relates it. */
    lemma NoConstraintOfLine(line: int)
      requires LinksExact(links.links, constraintBase)
      requires forall l :: l in links.links ==> l.line != line
      ensures forall cid, lg :: cid in constraintBase && lg in constraintBase[cid].groups ==> lg.0 != line
    {
      forall cid, lg | cid in constraintBase && lg in constraintBase[cid].groups ensures lg.0 != line {
        assert Link(lg.0, lg.1, cid) in LinksOf(cid, constraintBase[cid]);
      }
    }

    /**
     * The user's pattern for the line. When the assistant takes it, every constraint
     * linked to the line is deregistered, even if the pattern did not change; an empty
     * pattern is refused before anything changes.
     */
    method UpdatePattern(line: int, pattern: string) returns (outcome: Outcome<RegexError>)
      requires Valid() && line in parsers
      modifies this, links, assistant.matches[line]
      ensures Valid()
      ensures parsers == old(parsers) && effectId == old(effectId) && assistant.matches == old(assistant.matches)
      ensures outcome == Fail(EmptyRegex) <==> pattern == []
      ensures pattern != [] ==> outcome == Pass
      ensures outcome.Fail? ==> constraintBase == old(constraintBase) && links.links == old(links.links)
      ensures outcome.Fail? ==> assistant.Views() == old(assistant.Views())
      ensures assistant.matches[line].guessed == old(assistant.matches[line].guessed)
      ensures outcome.Pass? ==>
                var m := assistant.matches[line];
                && m.regex == AnchorEnd(pattern)
                && m.paramGroups == (if m.Matches() then NumberedGroups(assistant.env.re.groups(m.regex, m.lineText), TO_STRING) else map[])
                && constraintBase == old(constraintBase) - ConstraintsOfLine(old(links.links), line)
                && (forall l :: l in links.links ==> l.line != line)
      ensures forall k :: k in parsers && k != line ==> assistant.Views()[k] == old(assistant.Views())[k]
    {
      outcome := assistant.UpdateByPattern(line, pattern);
      if outcome.Fail? {
        return;
      }
      RemoveConstraintsByLine(line);
    }

    /** Takes one of the line's guessed patterns; the constraints are left as they are. */
    method ChooseGuessedPattern(line: int, patternId: int)
      requires Valid() && line in parsers && patternId in assistant.matches[line].guessed
      modifies assistant.matches[line]
      ensures Valid()
      ensures var pm := old(assistant.matches[line].guessed[patternId]);
              assistant.matches[line].regex == AnchorEnd(pm.pattern) && assistant.matches[line].paramGroups == pm.paramGroups
      ensures forall k :: k in parsers && k != line ==> assistant.Views()[k] == old(assistant.Views())[k]
    {
      var outcome := assistant.UpdateByGuessedPatternMatch(line, patternId);
    }

    /**
     * `guess_patterns` as written: it iterates over the dictionary of guesses, which
     * yields the integer keys, and reads `.pattern` of the first key.
     */
    function GuessPatternsAsWritten(line: int): (r: Result<seq<string>, TeacherError>)
      requires line in assistant.matches
      reads this, assistant, assistant.matches.Values
      ensures r.Ok? <==> assistant.matches[line].guessed == map[]
    {
      var guesses := assistant.GuessPatternMatches(line);
      if guesses == map[] then Ok([]) else Err(AttributeError)
    }

    /** Every line has at least one guess, so `guess_patterns` as written always fails. */
    lemma GuessPatternsAsWrittenFails(line: int)
      requires Valid() && line in parsers
      ensures GuessPatternsAsWritten(line) == Err(AttributeError)
    {
      assert 0 in assistant.matches[line].guessed;
    }

    /** The guessed patterns of the line, in guess order. */
    function GuessPatterns(line: int): (r: seq<string>)
      requires Valid() && line in parsers
      reads this, links, assistant, assistant.matches.Values
      ensures var m := assistant.matches[line];
              var guesses := assistant.env.guessPatternMatches(m.lineText);
              && |r| == |guesses| > 0
              && forall i :: 0 <= i < |r| ==> i in m.guessed && r[i] == m.guessed[i].pattern == guesses[i].pattern
    {
      var m := assistant.matches[line];
      var guesses := assistant.env.guessPatternMatches(m.lineText);
      var guessed := m.guessed;
      assert m.Valid();
      seq(|guesses|, i requires 0 <= i < |guesses| && i in guessed => guessed[i].pattern)
    }

    /**
     * The line holds what `_add_default_parser` gives it: a container in the state of
     * guess 0 of its text, and a parser for it with the name the configuration proposes
     * outside the blacklist, the least group as primary key (none without groups), and
     * no log type.
     */
    ghost predicate DefaultLine(line: int, lineObject: FrontInput, blacklist: set<string>)
      reads this, assistant, assistant.matches.Values
    {
      && line in parsers && line in assistant.matches
      && var m := assistant.matches[line];
         var guesses := assistant.env.guessPatternMatches(lineObject.lineContent);
         var p := parsers[line];
         && m.lineText == lineObject.lineContent
         && |guesses| > 0 && guesses[0].pattern != []
         && m.regex == AnchorEnd(guesses[0].pattern) && m.paramGroups == guesses[0].paramGroups
         && m.guessed == Keyed(guesses)
         && DefaultParser(p, lineObject, m.paramGroups, assistant.env.proposeParserName(lineObject.lineContent, m.regex, blacklist))
    }

    /**
     * `_add_default_parser`: a container for the line, a parser named by the configuration
     * outside the names already taken, keyed by its least group when there are groups.
     */
    method AddDefaultParser(line: int, lineObject: FrontInput)
      requires Valid()
      modifies this, assistant
      ensures Valid()
      ensures line in parsers && parsers == old(parsers)[line := parsers[line]]
      ensures DefaultLine(line, lineObject, old(NamesBlacklist()))
      ensures parsers[line].name !in old(NamesBlacklist())
      ensures fresh(assistant.matches[line])
      ensures forall k :: k in old(assistant.matches) && k != line ==> assistant.matches[k] == old(assistant.matches[k])
      ensures constraintBase == old(constraintBase) && effectId == old(effectId)
    {
      var blacklist := NamesBlacklist();
      assistant.AddLine(line, lineObject.lineContent);
      var parser := ProposeParser(line, lineObject, blacklist);
      SetParser(line, parser);
    }

    /** Installs the parser of a line whose container is already in place. */
    method SetParser(line: int, p: TeacherParser)
      requires assistant.Valid() && parsers.Keys + {line} == assistant.matches.Keys
      requires LinksExact(links.links, constraintBase)
      modifies this`parsers
      ensures Valid() && parsers == old(parsers)[line := p]
    {
      parsers := parsers[line := p];
    }

    /** The default parser of a line whose container is in place. */
    method ProposeParser(line: int, lineObject: FrontInput, blacklist: set<string>) returns (p: TeacherParser)
      requires line in assistant.matches && Sound(assistant.env)
      ensures var m := assistant.matches[line];
              DefaultParser(p, lineObject, m.paramGroups, assistant.env.proposeParserName(lineObject.lineContent, m.regex, blacklist))
      ensures p.name !in blacklist
    {
      var defaultPatternMatch := assistant.GetPatternMatch(line);
      var defaultPattern := defaultPatternMatch.pattern;
      var defaultGroups := defaultPatternMatch.paramGroups;
      var defaultName := assistant.env.proposeParserName(lineObject.lineContent, defaultPattern, blacklist);
      var primaryKey: seq<int> := [];
      if defaultGroups != map[] {
        var least := Min(defaultGroups.Keys);
        primaryKey := [least];
      }
      p := TeacherParser(lineObject, defaultName, primaryKey, None);
    }

    /**
     * Adds a line. A line already present is removed first, with its constraints; the line
     * becomes the effect when `effect` is set. Its parser's name differs from the name of
     * every other parser.
     */
    method AddLine(line: int, lineObject: FrontInput, effect: bool)
      requires Valid()
      modifies this, links, assistant
      ensures Valid()
      ensures parsers.Keys == old(parsers.Keys) + {line}
      ensures forall k :: k in old(parsers) && k != line ==> parsers[k] == old(parsers[k])
      ensures DefaultLine(line, lineObject, NamesOf(old(parsers) - {line}))
      ensures fresh(assistant.matches[line])
      ensures forall k :: k in old(assistant.matches) && k != line ==> assistant.matches[k] == old(assistant.matches[k])
      ensures forall k :: k in parsers && k != line ==> parsers[k].name != parsers[line].name
      ensures effect ==> effectId == Some(line)
      ensures !effect ==> effectId == old(effectId)
      ensures line in old(parsers) ==>
                && constraintBase == old(constraintBase) - ConstraintsOfLine(old(links.links), line)
                && forall l :: l in links.links ==> l.line != line
      ensures line !in old(parsers) ==> constraintBase == old(constraintBase) && links.links == old(links.links)
    {
      ClearLine(line, effect);
      ghost var others := parsers;
      assert NamesBlacklist() == NamesOf(others);
      AddDefaultParser(line, lineObject);
      forall k | k in parsers && k != line ensures parsers[k].name != parsers[line].name {
        assert k in others && parsers[k] == others[k];
      }
    }

    /** The part of `add_line` before the parser: the old line removed, the effect set. */
    method ClearLine(line: int, effect: bool)
      requires Valid()
      modifies this, links, assistant
      ensures Valid()
      ensures parsers == old(parsers) - {line}
      ensures assistant.matches == old(assistant.matches) - {line}
      ensures effect ==> effectId == Some(line)
      ensures !effect ==> effectId == old(effectId)
      ensures line in old(parsers) ==>
                && constraintBase == old(constraintBase) - ConstraintsOfLine(old(links.links), line)
                && forall l :: l in links.links ==> l.line != line
      ensures line !in old(parsers) ==> constraintBase == old(constraintBase) && links.links == old(links.links)
    {
      if line in parsers {
        RemoveLine(line);
      }
      if effect {
        effectId := Some(line);
      }
    }

    /** `_prepare_user_parser`: the line's parser and its current pattern match, together. */
    function PrepareUserParser(line: int): (u: UserParserIntent)
      requires Wf() && line in parsers
      reads this, assistant, assistant.matches.Values
      ensures var p := parsers[line];
              var pm := assistant.GetPatternMatch(line);
              && u.name == p.name && u.logType == p.logType && u.primaryKeys == p.primaryKeys
              && u.pattern == pm.pattern && u.paramGroups == pm.paramGroups
              && u.lineContent == p.line.lineContent && u.offset == p.line.offset && u.lineSource == p.line.lineSource
    {
      var pm := assistant.GetPatternMatch(line);
      var p := parsers[line];
      UserParserIntent(p.name, pm.pattern, p.logType, p.primaryKeys, pm.paramGroups,
                       p.line.lineContent, p.line.offset, p.line.lineSource)
    }

    /**
     * `get_rule`: the effect, a user parser per line, and every registered constraint
     * once, in the unspecified order of the base; nothing is changed.
     */
    method GetRule() returns (rule: UserRuleIntent)
      requires Wf()
      ensures rule.effectId == effectId
      ensures rule.parsers.Keys == parsers.Keys
      ensures forall k :: k in rule.parsers ==> rule.parsers[k] == PrepareUserParser(k)
      ensures |rule.constraints| == |constraintBase.Keys|
      ensures forall cid :: cid in constraintBase ==> constraintBase[cid] in rule.constraints
      ensures forall i :: 0 <= i < |rule.constraints| ==> rule.constraints[i] in constraintBase.Values
      ensures exists ids: seq<int> :: ListsBase(ids, rule.constraints, constraintBase)
    {
      var userParsers := map k | k in parsers :: PrepareUserParser(k);
      var ids := SetToSeq(constraintBase.Keys);
      var base := constraintBase;
      assert forall i :: 0 <= i < |ids| ==> ids[i] in base by {
        forall i | 0 <= i < |ids| ensures ids[i] in base {
          assert ids[i] in ids;
        }
      }
      var userConstraints := seq(|ids|, i requires 0 <= i < |ids| && ids[i] in base => base[ids[i]]);
      forall cid | cid in base ensures base[cid] in userConstraints {
        var i :| 0 <= i < |ids| && ids[i] == cid;
        assert userConstraints[i] == base[cid];
      }
      rule := UserRuleIntent(effectId, userParsers, userConstraints);
      assert ListsBase(ids, rule.constraints, constraintBase);
    }
  }

  /** A new teacher whose only line is the effect line 1. */
  method EffectSession(env: Env, effect: FrontInput) returns (t: Teacher)
    requires Sound(env)
    ensures fresh(t) && fresh(t.links) && fresh(t.assistant) && fresh(t.assistant.matches.Values)
    ensures t.Valid()
    ensures t.parsers.Keys == {1} && t.parsers[1].line == effect
    ensures t.effectId == Some(1) && t.constraintBase == map[]
  {
    var assistant := new RegexAssistant(env);
    t := new Teacher(assistant);
    t.AddLine(1, effect, true);
  }

  /** A new teacher with the effect line 1 and a cause line 2. */
  method TwoLineSession(env: Env, effect: FrontInput, cause: FrontInput) returns (t: Teacher)
    requires Sound(env)
    ensures fresh(t) && fresh(t.links) && fresh(t.assistant) && fresh(t.assistant.matches.Values)
    ensures t.Valid()
    ensures t.parsers.Keys == {1, 2} && t.parsers[1].line == effect && t.parsers[2].line == cause
    ensures t.effectId == Some(1) && t.constraintBase == map[]
  {
    t := EffectSession(env, effect);
    ghost var before := t.assistant.matches;
    t.AddLine(2, cause, false);
    forall v | v in t.assistant.matches.Values ensures fresh(v) {
      var k :| k in t.assistant.matches && t.assistant.matches[k] == v;
      assert k == 2 || before[k] in before.Values;
    }
  }

  /**
   * The two-line session with an identical constraint 7 relating group 1 of the effect
   * line 1 and group 1 of the cause line 2.
   */
  method LinkedSession(env: Env, effect: FrontInput, cause: FrontInput) returns (t: Teacher)
    requires Sound(env)
    ensures fresh(t) && fresh(t.links) && fresh(t.assistant) && fresh(t.assistant.matches.Values)
    ensures t.Valid()
    ensures t.parsers.Keys == {1, 2} && t.parsers[1].line == effect && t.effectId == Some(1)
    ensures t.constraintBase.Keys == {7} && Link(1, 1, 7) in t.links.links
  {
    t := TwoLineSession(env, effect, cause);
    var c := Constraint(Identical, [(1, 1), (2, 1)], map[]);
    t.RegisterConstraint(7, c);
    assert Link(1, 1, 7) in LinksOf(7, c);
  }

  /**
   * The linked two-line session after the effect's pattern is edited: the edit
   * deregisters the constraint.
   */
  method EditedSession(env: Env, effect: FrontInput, cause: FrontInput, pattern: string) returns (t: Teacher)
    requires Sound(env) && pattern != []
    ensures fresh(t) && fresh(t.links) && fresh(t.assistant)
    ensures t.Valid()
    ensures t.parsers.Keys == {1, 2} && t.parsers[1].line == effect && t.effectId == Some(1)
    ensures t.assistant.matches[1].regex == AnchorEnd(pattern)
    ensures t.constraintBase == map[]
  {
    t := LinkedSession(env, effect, cause);
    assert t.assistant.matches[1] in t.assistant.matches.Values;
    var outcome := t.UpdatePattern(1, pattern);
    assert 7 !in t.constraintBase;
  }

  /**
   * A teaching session: the constraint relating the effect line 1 to the cause line 2
   * goes when the effect's pattern is edited, and removing the cause leaves the effect alone.
   */
  method EditSession(env: Env, effect: FrontInput, cause: FrontInput, pattern: string) returns (t: Teacher)
    requires Sound(env) && pattern != []
    ensures t.Valid()
    ensures t.parsers.Keys == {1} && t.parsers[1].line == effect && t.effectId == Some(1)
    ensures t.assistant.matches[1].regex == AnchorEnd(pattern)
    ensures t.constraintBase == map[] && t.links.links == {}
  {
    t := EditedSession(env, effect, cause, pattern);
    t.RemoveLine(2);
  }
}
