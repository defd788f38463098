/** Choosing which numbers ring a desk: editing the ring steps of every number's journey at once. */
module RingSources {
  import opened Wrappers
  import opened RouteNodes

  /** The ring steps of one number's journey as they stand, and whether the desk shall ring on it. */
  datatype Line = Line(number: string, nodes: seq<Node>, selected: bool)

  /** An edited journey, to be written back. */
  datatype Update = Update(number: string, nodes: seq<Node>)

  /** The step that is added for a desk no enabled step of the journey names yet. */
  function RingStep(key: string): Node {
    Node(Simultaneous, true, "", [key], "", "", "", [], "", [], 0, 0, true, None)
  }

  predicate Names(node: Node, groups: seq<Group>, key: string) { IsRing(node) && key in Members(node, groups) }

  predicate RingsNow(node: Node, groups: seq<Group>, key: string) { node.enabled && Names(node, groups, key) }

  /** Take the desk out of one ring step: its list becomes its own, and an emptied step is switched off. */
  function Without(node: Node, groups: seq<Group>, key: string): Node {
    var members := Keep(Members(node, groups), k => k != key);
    node.(kind := if node.kind == Desk then Simultaneous else node.kind,
          extension := if node.kind == Desk then "" else node.extension,
          extensions := members, group := "", enabled := members != [] && node.enabled)
  }

  function Cleared(node: Node, groups: seq<Group>, key: string): Node {
    if Names(node, groups, key) then Without(node, groups, key) else node
  }

  function ClearedAll(nodes: seq<Node>, groups: seq<Group>, key: string): (r: seq<Node>)
    ensures |r| == |nodes|
    ensures forall i :: 0 <= i < |r| ==> r[i] == Cleared(nodes[i], groups, key)
  {
    seq(|nodes|, i requires 0 <= i < |nodes| => Cleared(nodes[i], groups, key))
  }

  predicate Terminal(node: Node) { node.kind == VoicemailStep || node.kind == ForwardStep }

  /** The place of the first terminal step, or the end. */
  function TerminalAt(nodes: seq<Node>): (i: nat)
    ensures i <= |nodes|
    ensures i < |nodes| ==> Terminal(nodes[i])
    ensures forall j :: 0 <= j < i ==> !Terminal(nodes[j])
  {
    if nodes == [] then 0 else if Terminal(nodes[0]) then 0 else 1 + TerminalAt(nodes[1..])
  }

  predicate Present(nodes: seq<Node>, groups: seq<Group>, key: string) {
    exists i :: 0 <= i < |nodes| && RingsNow(nodes[i], groups, key)
  }

  predicate Mentioned(nodes: seq<Node>, groups: seq<Group>, key: string) {
    exists i :: 0 <= i < |nodes| && Names(nodes[i], groups, key)
  }

  /** One journey after the edit. */
  function Edited(line: Line, groups: seq<Group>, key: string): seq<Node> {
    if !line.selected then ClearedAll(line.nodes, groups, key)
    else if Present(line.nodes, groups, key) then line.nodes
    else
      var at := TerminalAt(line.nodes);
      line.nodes[..at] + [RingStep(key)] + line.nodes[at..]
  }

  predicate Changes(line: Line, groups: seq<Group>, key: string) {
    if line.selected then !Present(line.nodes, groups, key) else Mentioned(line.nodes, groups, key)
  }

  /** Every journey the edit changes, in the order of the lines. */
  function Updates(lines: seq<Line>, groups: seq<Group>, key: string): seq<Update> {
    if lines == [] then []
    else
      var last := lines[|lines| - 1];
      Updates(lines[..|lines| - 1], groups, key) +
      if Changes(last, groups, key) then [Update(last.number, Edited(last, groups, key))] else []
  }

  /** The first journey among the lines that the validator refuses. */
  predicate AllAccepted(lines: seq<Line>, groups: seq<Group>, key: string, accepts: (string, seq<Node>) -> bool) {
    forall i :: 0 <= i < |lines| && Changes(lines[i], groups, key) ==> accepts(lines[i].number, Edited(lines[i], groups, key))
  }

  // ---------------------------------------------------------------- the editing loops

  /** Edit one journey's steps in place. */
  method EditLine(line: Line, groups: seq<Group>, key: string) returns (nodes: seq<Node>, changed: bool)
    ensures changed <==> Changes(line, groups, key)
    ensures nodes == Edited(line, groups, key)
  {
    hide Names, Without;
    nodes := line.nodes;
    var present := false;
    changed := false;
    for i := 0 to |nodes|
      invariant |nodes| == |line.nodes|
      invariant present <==> line.selected && Present(line.nodes[..i], groups, key)
      invariant changed <==> !line.selected && Mentioned(line.nodes[..i], groups, key)
      invariant line.selected ==> nodes == line.nodes
      invariant !line.selected ==>
        (forall j :: 0 <= j < i ==> nodes[j] == Cleared(line.nodes[j], groups, key)) && nodes[i..] == line.nodes[i..]
    {
      var node := nodes[i];
      assert node == line.nodes[i] by { if !line.selected { assert nodes[i..][0] == line.nodes[i..][0]; } }
      assert line.nodes[..i + 1] == line.nodes[..i] + [node];
      MoreSteps(line.nodes[..i], node, groups, key);
      if Names(node, groups, key) {
        if line.selected {
          present := present || node.enabled;
        } else {
          changed := true;
          nodes := nodes[i := Without(node, groups, key)];
        }
      }
      if !line.selected {
        assert forall j :: i + 1 <= j < |nodes| ==> nodes[j] == nodes[i + 1..][j - i - 1] == line.nodes[j];
      }
    }
    assert line.nodes[..|line.nodes|] == line.nodes;
    if line.selected && !present {
      var at := TerminalAt(nodes);
      nodes := nodes[..at] + [RingStep(key)] + nodes[at..];
      changed := true;
    }
  }

  lemma MoreSteps(nodes: seq<Node>, node: Node, groups: seq<Group>, key: string)
    ensures Present(nodes + [node], groups, key) <==> Present(nodes, groups, key) || RingsNow(node, groups, key)
    ensures Mentioned(nodes + [node], groups, key) <==> Mentioned(nodes, groups, key) || Names(node, groups, key)
  {
    hide Names;
    var longer := nodes + [node];
    assert longer[|nodes|] == node;
    assert forall i :: 0 <= i < |nodes| ==> longer[i] == nodes[i];
  }

  /** Edit every line; one refused journey refuses the whole edit, and nothing is written. */
  method RingSourceUpdates(lines: seq<Line>, groups: seq<Group>, key: string, accepts: (string, seq<Node>) -> bool)
    returns (updates: Option<seq<Update>>)
    ensures updates == if AllAccepted(lines, groups, key, accepts) then Some(Updates(lines, groups, key)) else None
  {
    hide Edited, Changes;
    var edited: seq<Update> := [];
    for i := 0 to |lines|
      invariant edited == Updates(lines[..i], groups, key)
      invariant AllAccepted(lines[..i], groups, key, accepts)
    {
      var nodes, changed := EditLine(lines[i], groups, key);
      assert lines[..i + 1][..i] == lines[..i] && lines[..i + 1][i] == lines[i];
      if changed {
        if !accepts(lines[i].number, nodes) { return None; }
        edited := edited + [Update(lines[i].number, nodes)];
      }
    }
    assert lines[..|lines|] == lines;
    return Some(edited);
  }

  // ---------------------------------------------------------------- what the edit means

  lemma ClearedFacts(node: Node, groups: seq<Group>, key: string, other: string)
    requires key != "" && MembersOf(groups, "") == []
    ensures var c := Cleared(node, groups, key);
            && !Names(c, groups, key)
            && (other != key ==> (RingsNow(c, groups, other) <==> RingsNow(node, groups, other)) && (Names(c, groups, other) <==> Names(node, groups, other)))
            && IsRing(c) == IsRing(node) && (!IsRing(node) ==> c == node)
  {
    KeepIs(Members(node, groups), k => k != key);
  }

  predicate NoBlankGroup(groups: seq<Group>) { forall i :: 0 <= i < |groups| ==> groups[i].id != "" }

  lemma {:induction false} BlankGroupIsEmpty(groups: seq<Group>)
    requires NoBlankGroup(groups)
    ensures MembersOf(groups, "") == []
  {
    if groups != [] { BlankGroupIsEmpty(groups[1..]); }
  }

  /**
   * After the edit the desk rings in some enabled step of every selected line, and is named by no ring step,
   * enabled or not, of any other line.
   */
  lemma RingsExactlyWhereSelected(line: Line, groups: seq<Group>, key: string)
    requires key != "" && NoBlankGroup(groups)
    ensures line.selected <==> Present(Edited(line, groups, key), groups, key)
    ensures !line.selected ==> !Mentioned(Edited(line, groups, key), groups, key)
  {
    BlankGroupIsEmpty(groups);
    var nodes := Edited(line, groups, key);
    if !line.selected {
      forall i | 0 <= i < |nodes| ensures !Names(nodes[i], groups, key) { ClearedFacts(line.nodes[i], groups, key, ""); }
    } else if !Present(line.nodes, groups, key) {
      assert nodes[TerminalAt(line.nodes)] == RingStep(key);
    }
  }

  /** Every other desk rings on this line after the edit exactly when it did before. */
  lemma OthersKeepRinging(line: Line, groups: seq<Group>, key: string, other: string)
    requires key != "" && other != key && NoBlankGroup(groups)
    ensures Present(Edited(line, groups, key), groups, other) <==> Present(line.nodes, groups, other)
    ensures Mentioned(Edited(line, groups, key), groups, other) <==> Mentioned(line.nodes, groups, other)
  {
    hide Names, Members, Cleared, ClearedAll, TerminalAt, Present, Mentioned, RingStep;
    if !line.selected {
      OthersSurviveClearing(line.nodes, groups, key, other);
    } else if !Present(line.nodes, groups, key) {
      RingStepNames(groups, key, other);
      OthersSurviveInsertion(line.nodes, TerminalAt(line.nodes), RingStep(key), groups, other);
    }
  }

  lemma OthersSurviveClearing(nodes: seq<Node>, groups: seq<Group>, key: string, other: string)
    requires key != "" && other != key && NoBlankGroup(groups)
    ensures Present(ClearedAll(nodes, groups, key), groups, other) <==> Present(nodes, groups, other)
    ensures Mentioned(ClearedAll(nodes, groups, key), groups, other) <==> Mentioned(nodes, groups, other)
  {
    hide Names, Members, Cleared;
    BlankGroupIsEmpty(groups);
    var cleared := ClearedAll(nodes, groups, key);
    forall i | 0 <= i < |nodes|
      ensures RingsNow(cleared[i], groups, other) <==> RingsNow(nodes[i], groups, other)
      ensures Names(cleared[i], groups, other) <==> Names(nodes[i], groups, other)
    {
      ClearedFacts(nodes[i], groups, key, other);
    }
  }

  lemma OthersSurviveInsertion(nodes: seq<Node>, at: nat, ring: Node, groups: seq<Group>, other: string)
    requires at <= |nodes| && !Names(ring, groups, other)
    ensures Present(nodes[..at] + [ring] + nodes[at..], groups, other) <==> Present(nodes, groups, other)
    ensures Mentioned(nodes[..at] + [ring] + nodes[at..], groups, other) <==> Mentioned(nodes, groups, other)
  {
    hide Names;
    var longer := nodes[..at] + [ring] + nodes[at..];
    forall i | 0 <= i < |nodes| ensures longer[if i < at then i else i + 1] == nodes[i] {}
    forall j | 0 <= j < |longer| && j != at ensures longer[j] == nodes[if j < at then j else j - 1] {}
  }

  lemma RingStepNames(groups: seq<Group>, key: string, other: string)
    requires other != key
    ensures !Names(RingStep(key), groups, other)
  {}

  /** The steps that ring nobody, in order. */
  function Journey(nodes: seq<Node>): seq<Node> {
    if nodes == [] then [] else Journey(nodes[..|nodes| - 1]) + if IsRing(nodes[|nodes| - 1]) then [] else [nodes[|nodes| - 1]]
  }

  lemma {:induction false} JourneyTogether(a: seq<Node>, b: seq<Node>)
    ensures Journey(a + b) == Journey(a) + Journey(b)
    decreases |b|
  {
    if b == [] {
      assert a + b == a;
    } else {
      var shorter := b[..|b| - 1];
      JourneyTogether(a, shorter);
      assert (a + b)[..|a + b| - 1] == a + shorter;
    }
  }

  /** Hours, menus, mailboxes and forwards are untouched, in order. */
  lemma {:induction false} JourneyIsUntouched(line: Line, groups: seq<Group>, key: string)
    requires key != "" && NoBlankGroup(groups)
    ensures Journey(Edited(line, groups, key)) == Journey(line.nodes)
  {
    BlankGroupIsEmpty(groups);
    if !line.selected {
      ClearedJourney(line.nodes, groups, key);
    } else if !Present(line.nodes, groups, key) {
      var at := TerminalAt(line.nodes);
      var before, after := line.nodes[..at], line.nodes[at..];
      JourneyTogether(before + [RingStep(key)], after);
      JourneyTogether(before, [RingStep(key)]);
      JourneyTogether(before, after);
      assert [RingStep(key)][..0] == [] && Journey([RingStep(key)]) == [];
      assert line.nodes == before + after;
    }
  }

  lemma {:induction false} ClearedJourney(nodes: seq<Node>, groups: seq<Group>, key: string)
    requires key != "" && MembersOf(groups, "") == []
    ensures Journey(ClearedAll(nodes, groups, key)) == Journey(nodes)
  {
    if nodes != [] {
      hide Names, Cleared;
      var shorter, cleared := nodes[..|nodes| - 1], ClearedAll(nodes, groups, key);
      ClearedJourney(shorter, groups, key);
      ClearedFacts(nodes[|nodes| - 1], groups, key, "");
      assert cleared[..|nodes| - 1] == ClearedAll(shorter, groups, key);
    }
  }

  /** The same choice made again finds nothing to write. */
  lemma SecondEditIsEmpty(lines: seq<Line>, groups: seq<Group>, key: string)
    requires key != "" && NoBlankGroup(groups)
    ensures Updates(Applied(lines, groups, key), groups, key) == []
  {
    hide Changes, Edited;
    forall i | 0 <= i < |lines| ensures !Changes(Applied(lines, groups, key)[i], groups, key) { SecondEditOfOne(lines[i], groups, key); }
    NothingChanges(Applied(lines, groups, key), groups, key);
  }

  /** The lines once the updates are written: a line without an update keeps its steps. */
  function Applied(lines: seq<Line>, groups: seq<Group>, key: string): (r: seq<Line>)
    ensures |r| == |lines|
    ensures forall i :: 0 <= i < |r| ==> r[i] == AppliedTo(lines[i], groups, key)
  {
    seq(|lines|, i requires 0 <= i < |lines| => AppliedTo(lines[i], groups, key))
  }

  function AppliedTo(line: Line, groups: seq<Group>, key: string): Line {
    if Changes(line, groups, key) then line.(nodes := Edited(line, groups, key)) else line
  }

  lemma SecondEditOfOne(line: Line, groups: seq<Group>, key: string)
    requires key != "" && NoBlankGroup(groups)
    ensures !Changes(AppliedTo(line, groups, key), groups, key)
  {
    RingsExactlyWhereSelected(line, groups, key);
  }

  lemma {:induction false} NothingChanges(lines: seq<Line>, groups: seq<Group>, key: string)
    requires forall i :: 0 <= i < |lines| ==> !Changes(lines[i], groups, key)
    ensures Updates(lines, groups, key) == []
  {
    hide Changes;
    if lines != [] { NothingChanges(lines[..|lines| - 1], groups, key); }
  }

  /** A line the edit leaves out would not have been changed by it. */
  lemma UnchangedMeansSame(line: Line, groups: seq<Group>, key: string)
    requires !Changes(line, groups, key)
    ensures Edited(line, groups, key) == line.nodes
  {
    if !line.selected { assert forall i :: 0 <= i < |line.nodes| ==> !Names(line.nodes[i], groups, key); }
  }

  // ---------------------------------------------------------------- the same edit, read as updates

  /** Every update is one line's edit, and every changed line has its update. */
  lemma {:induction false} UpdatesAre(lines: seq<Line>, groups: seq<Group>, key: string)
    ensures forall u :: u in Updates(lines, groups, key) <==>
              exists i :: 0 <= i < |lines| && Changes(lines[i], groups, key) && u == Update(lines[i].number, Edited(lines[i], groups, key))
  {
    hide Changes, Edited;
    if lines != [] {
      var shorter, last := lines[..|lines| - 1], lines[|lines| - 1];
      UpdatesAre(shorter, groups, key);
      forall u | u in Updates(lines, groups, key)
        ensures exists i :: 0 <= i < |lines| && Changes(lines[i], groups, key) && u == Update(lines[i].number, Edited(lines[i], groups, key))
      {
        if u in Updates(shorter, groups, key) {
          var i :| 0 <= i < |shorter| && Changes(shorter[i], groups, key) && u == Update(shorter[i].number, Edited(shorter[i], groups, key));
          assert lines[i] == shorter[i];
        }
      }
      forall i | 0 <= i < |lines| && Changes(lines[i], groups, key)
        ensures Update(lines[i].number, Edited(lines[i], groups, key)) in Updates(lines, groups, key)
      {
        if i < |shorter| { assert shorter[i] == lines[i]; }
      }
    }
  }
}
