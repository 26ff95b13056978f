/**
 * The records of whylog/assistant/pattern_match.py: a parameter group
 * (the text a capture group caught and the converter applied to it) and a
 * pattern match (a line, a pattern for it and its numbered groups).
 */
module Patterns {

  /** A converter name (whylog/converters is not part of this model). */
  type Converter = string

  /** ConverterType.TO_STRING, the default converter of RegexMatch. */
  const TO_STRING: Converter := "to_string"

  /** DataType.STRING, the default converter of RegexObject. */
  const STRING: Converter := "string"

  datatype ParamGroup = ParamGroup(content: string, converter: Converter)

  /** Groups are numbered from 1; the number is the key. */
  type Groups = map<int, ParamGroup>

  datatype PatternMatch = PatternMatch(lineText: string, pattern: string, paramGroups: Groups)

  /** `__eq__`: the two attribute dictionaries are equal. */
  function Equal(a: ParamGroup, b: ParamGroup): (r: bool)
    ensures r <==> a.content == b.content && a.converter == b.converter
  {
    a == b
  }

  lemma EqualIsEquivalence(a: ParamGroup, b: ParamGroup, c: ParamGroup)
    ensures Equal(a, a)
    ensures Equal(a, b) ==> Equal(b, a)
    ensures Equal(a, b) && Equal(b, c) ==> Equal(a, c)
  {
  }

  /** The group after `group.converter = converter`. */
  function WithConverter(g: ParamGroup, c: Converter): (r: ParamGroup)
    ensures r.content == g.content && r.converter == c
  {
    g.(converter := c)
  }

  /** Changing the converter makes a group unequal to a copy holding the old one. */
  lemma ChangedConverterNotEqual(g: ParamGroup, c: Converter)
    ensures Equal(WithConverter(g, c), g) <==> c == g.converter
  {
  }

  /**
   * `dict((key + 1, ParamGroup(groups[key], converter)) for key in range(len(groups)))`:
   * the k-th matched group under key k, counting from 1.
   */
  function NumberedGroups(groups: seq<string>, converter: Converter): (m: Groups)
    ensures forall k :: k in m <==> 1 <= k <= |groups|
    ensures forall k :: k in m ==> m[k] == ParamGroup(groups[k - 1], converter)
  {
    map k | 1 <= k <= |groups| :: GroupAt(groups, k, converter)
  }

  function GroupAt(groups: seq<string>, k: int, converter: Converter): ParamGroup
    requires 1 <= k <= |groups|
  {
    ParamGroup(groups[k - 1], converter)
  }

  /** No groups matched means no parameter groups. */
  lemma NumberedGroupsEmpty(groups: seq<string>, converter: Converter)
    ensures NumberedGroups(groups, converter) == map[] <==> groups == []
  {
    if groups != [] {
      assert 1 in NumberedGroups(groups, converter);
    }
  }

  /** `param_groups[group_no].converter = converter`, on values. */
  function SetGroupConverter(groups: Groups, g: int, c: Converter): (r: Groups)
    requires g in groups
    ensures r.Keys == groups.Keys
    ensures r[g].content == groups[g].content && r[g].converter == c
    ensures forall k :: k in groups && k != g ==> r[k] == groups[k]
  {
    groups[g := WithConverter(groups[g], c)]
  }
}
