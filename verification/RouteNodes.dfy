/** The steps of a call journey as the canvas stores them. */
module RouteNodes {
  import opened Wrappers

  datatype Kind = Desk | RingGroup | Simultaneous | Sequential | VoicemailStep | ForwardStep | Menu | Hours

  datatype Mapping = Mapping(key: string, target: string)

  /** One step; a text that the step does not carry is blank. */
  datatype Node = Node(
    kind: Kind, enabled: bool, extension: string, extensions: seq<string>, group: string,
    mailbox: string, phone: string, keys: seq<Mapping>, fallback: string,
    days: seq<nat>, start: nat, end: nat, ringEnabled: bool, noAnswer: Option<string>)

  datatype Group = Group(id: string, owner: nat, members: seq<string>)

  predicate IsRing(node: Node) {
    node.kind == Desk || node.kind == RingGroup || node.kind == Simultaneous || node.kind == Sequential
  }

  /** The members of the group with this id; nothing when there is none. */
  function MembersOf(groups: seq<Group>, id: string): seq<string> {
    if groups == [] then []
    else if groups[0].id == id then groups[0].members
    else MembersOf(groups[1..], id)
  }

  /** The devices a ring step names: its own list, or its group's when that list is empty. */
  function Members(node: Node, groups: seq<Group>): seq<string> {
    if node.kind == Desk then (if node.extension == "" then [] else [node.extension])
    else if node.extensions != [] then node.extensions
    else MembersOf(groups, node.group)
  }

  function Keep(s: seq<string>, p: string -> bool): seq<string> {
    if s == [] then [] else (if p(s[0]) then [s[0]] else []) + Keep(s[1..], p)
  }

  lemma {:induction false} KeepIs(s: seq<string>, p: string -> bool)
    ensures forall x :: x in Keep(s, p) <==> x in s && p(x)
  {
    if s != [] {
      KeepIs(s[1..], p);
      assert s == [s[0]] + s[1..];
    }
  }

  lemma Regroup(a: seq<string>, b: seq<string>, c: seq<string>)
    ensures a + (b + c) == (a + b) + c
  {}

  lemma KeepStep(s: seq<string>, p: string -> bool)
    requires s != []
    ensures Keep(s, p) == (if p(s[0]) then [s[0]] else []) + Keep(s[1..], p)
  {}

  lemma {:induction false} KeepTogether(s: seq<string>, t: seq<string>, p: string -> bool)
    ensures Keep(s + t, p) == Keep(s, p) + Keep(t, p)
  {
    if s == [] {
      assert s + t == t;
      assert Keep(s, p) == [];
    } else {
      hide Keep;
      KeepTogether(s[1..], t, p);
      KeepStep(s, p);
      KeepStep(s + t, p);
      assert (s + t)[1..] == s[1..] + t;
      Regroup(if p(s[0]) then [s[0]] else [], Keep(s[1..], p), Keep(t, p));
    }
  }

  /** The first occurrence of every entry, in order. */
  function Unique(s: seq<string>): seq<string> {
    if s == [] then []
    else
      var before, last := Unique(s[..|s| - 1]), s[|s| - 1];
      if last in before then before else before + [last]
  }

  predicate NoRepeats(s: seq<string>) { forall i, j :: 0 <= i < j < |s| ==> s[i] != s[j] }

  /** The order of `u` is the order of first occurrences in `s`. */
  ghost predicate InFirstOrder(u: seq<string>, s: seq<string>) {
    forall i, j :: 0 <= i < j < |u| ==> exists k :: 0 <= k < |s| && s[k] == u[i] && u[j] !in s[..k + 1]
  }

  /** De-duplication keeps every entry once, in order of first occurrence. */
  lemma {:induction false} UniqueIs(s: seq<string>)
    ensures NoRepeats(Unique(s)) && InFirstOrder(Unique(s), s)
    ensures forall x :: x in Unique(s) <==> x in s
  {
    if s != [] {
      var before, shorter := Unique(s[..|s| - 1]), s[..|s| - 1];
      UniqueIs(shorter);
      assert s == shorter + [s[|s| - 1]];
      forall i, j | 0 <= i < j < |Unique(s)| ensures exists k :: 0 <= k < |s| && s[k] == Unique(s)[i] && Unique(s)[j] !in s[..k + 1] {
        if j < |before| {
          var k :| 0 <= k < |shorter| && shorter[k] == before[i] && before[j] !in shorter[..k + 1];
          assert s[..k + 1] == shorter[..k + 1];
        } else {
          assert before[i] in shorter;
          var k :| 0 <= k < |shorter| && shorter[k] == before[i];
          assert s[..k + 1] == shorter[..k + 1];
        }
      }
    }
  }
}
