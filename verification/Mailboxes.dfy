/** Which mailboxes must exist. */
module Mailboxes {
  import opened Wrappers
  import opened ExtensionKeys
  import opened Directory
  import opened RouteNodes
  import opened InboundPlan

  function ActiveRows(rows: seq<Extension>): seq<Extension> {
    if rows == [] then [] else (if rows[0].active then [rows[0]] else []) + ActiveRows(rows[1..])
  }

  predicate HasKey(rows: seq<Extension>, key: string) { exists i :: 0 <= i < |rows| && rows[i].key == key }

  /** The last row whose mailbox has this name. */
  function LastWithMailbox(rows: seq<Extension>, mailbox: string): Option<string> {
    if rows == [] then None
    else if Mailbox(rows[|rows| - 1].key) == mailbox then Some(rows[|rows| - 1].key)
    else LastWithMailbox(rows[..|rows| - 1], mailbox)
  }

  function FirstOn(rows: seq<Extension>, number: string, digits: string): Option<string> {
    if rows == [] then None
    else if rows[0].number == number && rows[0].digits == digits then Some(rows[0].key)
    else FirstOn(rows[1..], number, digits)
  }

  /** The extension whose mailbox a voicemail step means: by key, by mailbox name, or by its digits on the line. */
  function ResolveMailbox(rows: seq<Extension>, value: string, number: string): string {
    if value == "" then ""
    else if HasKey(rows, value) then value
    else match LastWithMailbox(rows, Mailbox(value))
      case Some(key) => key
      case None => if number == "" then "" else FirstOn(rows, number, Digits(value)).GetOr("")
  }

  /** The mailboxes the voicemail steps of one flow need. */
  function StepMailboxes(rows: seq<Extension>, nodes: seq<Node>, number: string): set<string> {
    set i | 0 <= i < |nodes| && nodes[i].kind == VoicemailStep && nodes[i].enabled && ResolveMailbox(rows, nodes[i].mailbox, number) != ""
      :: ResolveMailbox(rows, nodes[i].mailbox, number)
  }

  /** A flow is read on its own number when it is a number's, and on none when it is a desk's. */
  function OfFlow(rows: seq<Extension>, flow: Flow, onNumber: bool): set<string> {
    StepMailboxes(rows, flow.nodes, if onNumber then flow.target else "")
  }

  function FlowMailboxes(rows: seq<Extension>, flows: seq<Flow>, onNumber: bool): set<string> {
    set i, key | 0 <= i < |flows| && key in OfFlow(rows, flows[i], onNumber) :: key
  }

  function SwitchedOn(rows: seq<Extension>): set<string> { set e | e in rows && e.voicemail :: e.key }

  /** Every extension whose mailbox must exist: its own switch, or a voicemail step anywhere in a stored flow. */
  function Configured(s: Store): set<string> {
    var rows := ActiveRows(s.extensions);
    SwitchedOn(rows) + FlowMailboxes(rows, s.routes, true) + FlowMailboxes(rows, s.desks, false)
  }

  /** The loops over the flows and their steps. */
  method ConfiguredVoicemail(s: Store) returns (keys: set<string>)
    ensures keys == Configured(s)
  {
    var rows := ActiveRows(s.extensions);
    keys := SwitchedOn(rows);
    keys := AddFlows(rows, s.routes, true, keys);
    keys := AddFlows(rows, s.desks, false, keys);
  }

  method AddFlows(rows: seq<Extension>, flows: seq<Flow>, onNumber: bool, before: set<string>) returns (keys: set<string>)
    ensures keys == before + FlowMailboxes(rows, flows, onNumber)
  {
    hide StepMailboxes, ResolveMailbox;
    keys := before;
    for i := 0 to |flows|
      invariant keys == before + FlowMailboxes(rows, flows[..i], onNumber)
    {
      var number := if onNumber then flows[i].target else "";
      keys := AddSteps(rows, flows[i].nodes, number, keys);
      FlowsStep(rows, flows, i, onNumber);
    }
    assert flows[..|flows|] == flows;
  }

  lemma FlowsStep(rows: seq<Extension>, flows: seq<Flow>, i: nat, onNumber: bool)
    requires i < |flows|
    ensures FlowMailboxes(rows, flows[..i + 1], onNumber) ==
            FlowMailboxes(rows, flows[..i], onNumber) + OfFlow(rows, flows[i], onNumber)
  {
    hide OfFlow;
    var longer, shorter := flows[..i + 1], flows[..i];
    assert forall j :: 0 <= j < i ==> longer[j] == shorter[j];
    var added := OfFlow(rows, flows[i], onNumber);
    forall key | key in FlowMailboxes(rows, shorter, onNumber) + added ensures key in FlowMailboxes(rows, longer, onNumber) {
      if key in added { assert longer[i] == flows[i]; }
      else {
        var j :| 0 <= j < i && key in OfFlow(rows, shorter[j], onNumber);
        assert longer[j] == shorter[j];
      }
    }
    forall key | key in FlowMailboxes(rows, longer, onNumber) ensures key in FlowMailboxes(rows, shorter, onNumber) + added {
      var j :| 0 <= j < |longer| && key in OfFlow(rows, longer[j], onNumber);
      if j < i { assert longer[j] == shorter[j]; }
    }
  }

  method AddSteps(rows: seq<Extension>, nodes: seq<Node>, number: string, before: set<string>) returns (keys: set<string>)
    ensures keys == before + StepMailboxes(rows, nodes, number)
  {
    hide ResolveMailbox;
    keys := before;
    for j := 0 to |nodes|
      invariant keys == before + StepMailboxes(rows, nodes[..j], number)
    {
      var node := nodes[j];
      assert nodes[..j + 1] == nodes[..j] + [node];
      StepsStep(rows, nodes[..j], node, number);
      if node.kind == VoicemailStep && node.enabled {
        var key := ResolveMailbox(rows, node.mailbox, number);
        if key != "" { keys := keys + {key}; }
      }
    }
    assert nodes[..|nodes|] == nodes;
  }

  lemma StepsStep(rows: seq<Extension>, nodes: seq<Node>, node: Node, number: string)
    ensures StepMailboxes(rows, nodes + [node], number) ==
            StepMailboxes(rows, nodes, number) +
            if node.kind == VoicemailStep && node.enabled && ResolveMailbox(rows, node.mailbox, number) != ""
            then {ResolveMailbox(rows, node.mailbox, number)} else {}
  {
    hide ResolveMailbox;
    var longer := nodes + [node];
    assert longer[|nodes|] == node && forall j :: 0 <= j < |nodes| ==> longer[j] == nodes[j];
    forall key | key in StepMailboxes(rows, nodes, number) ensures key in StepMailboxes(rows, longer, number) {
      var i :| 0 <= i < |nodes| && nodes[i].kind == VoicemailStep && nodes[i].enabled && ResolveMailbox(rows, nodes[i].mailbox, number) != ""
        && key == ResolveMailbox(rows, nodes[i].mailbox, number);
      assert longer[i] == nodes[i];
    }
    forall key | key in StepMailboxes(rows, longer, number) && key !in StepMailboxes(rows, nodes, number)
      ensures node.kind == VoicemailStep && node.enabled && key == ResolveMailbox(rows, node.mailbox, number)
    {
      var i :| 0 <= i < |longer| && longer[i].kind == VoicemailStep && longer[i].enabled && ResolveMailbox(rows, longer[i].mailbox, number) != ""
        && key == ResolveMailbox(rows, longer[i].mailbox, number);
      assert i == |nodes|;
    }
  }

  lemma {:induction false} ActiveRowsAre(rows: seq<Extension>)
    ensures forall e :: e in ActiveRows(rows) <==> e in rows && e.active
  {
    if rows != [] {
      ActiveRowsAre(rows[1..]);
      assert rows == [rows[0]] + rows[1..];
    }
  }
}
