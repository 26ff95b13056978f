/**
 * The link index of the teacher: which constraint is linked to which
 * parameter group. The class `ConstraintLinksBase` of
 * whylog/teacher/constraint_links_base.py is not part of this model; this is
 * the behaviour the teacher relies on when it calls it.
 */
module ConstraintLinks {
  import opened Collections

  /** Constraint `cid` relates group `group` of line `line` to other groups. */
  datatype Link = Link(line: int, group: int, cid: int)

  /** The constraints linked to some group of the line. */
  function ConstraintsOfLine(links: set<Link>, line: int): set<int> {
    set l | l in links && l.line == line :: l.cid
  }

  /** The constraints linked to the group. */
  function ConstraintsOfGroup(links: set<Link>, line: int, group: int): set<int> {
    set l | l in links && l.line == line && l.group == group :: l.cid
  }

  class ConstraintLinksBase {
    var links: set<Link>

    constructor ()
      ensures links == {}
    {
      links := {};
    }

    method AddLinks(newLinks: seq<Link>)
      modifies this
      ensures links == old(links) + set l | l in newLinks
    {
      links := links + set l | l in newLinks;
    }

    /** Drops every link of the constraint. */
    method RemoveLinksByConstraint(cid: int)
      modifies this
      ensures links == set l | l in old(links) && l.cid != cid
    {
      links := set l | l in links && l.cid != cid;
    }

    /** Drops the links of the line and returns their constraints, each once. */
    method RemoveLinksByLine(line: int) returns (cids: seq<int>)
      modifies this
      ensures links == set l | l in old(links) && l.line != line
      ensures forall c :: c in cids <==> c in ConstraintsOfLine(old(links), line)
      ensures Distinct(cids)
    {
      var removed := ConstraintsOfLine(links, line);
      links := set l | l in links && l.line != line;
      cids := SetToSeq(removed);
    }

    /** Drops the links of the group and returns their constraints, each once. */
    method RemoveLinksByGroup(line: int, group: int) returns (cids: seq<int>)
      modifies this
      ensures links == set l | l in old(links) && !(l.line == line && l.group == group)
      ensures forall c :: c in cids <==> c in ConstraintsOfGroup(old(links), line, group)
      ensures Distinct(cids)
    {
      var removed := ConstraintsOfGroup(links, line, group);
      links := set l | l in links && !(l.line == line && l.group == group);
      cids := SetToSeq(removed);
    }
  }
}
