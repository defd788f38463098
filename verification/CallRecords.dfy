/** Call records, what the console is told about them, and what Asterisk is asked to do. */
module CallRecords {
  import opened Wrappers
  import IvrMenu

  type CallId = string

  /** Channels by name: the legs the engine numbers itself, and those Asterisk named. */
  datatype Channel = Employee(call: CallId, index: nat) | Customer(call: CallId, index: nat) | Foreign(name: string)

  datatype Leg = Leg(channel: Channel, extension: string)

  datatype Status =
    | Initiated | Ringing | EmployeeAnswered | DialingCustomer | Bridged | Answered
    | RingingFallback | Forwarding | Completed | Failed

  datatype Recording = NoRecording | Running | Finalizing | Finalized | RecordingFailed | Deleted

  datatype Call = Call(
    inbound: bool, extension: string, phone: string, number: string,
    status: Status, answered: bool, answeredAt: Option<nat>, endedAt: Option<nat>,
    employee: Channel, rung: seq<Leg>, customer: Option<Channel>,
    bridged: bool, named: bool, recording: Recording)
  {
    /** Every rung leg with its extension; the first leg stands in before any is recorded. */
    function Legs(): (r: seq<Leg>)
      ensures r != []
    {
      if rung == [] then [Leg(employee, extension)] else rung
    }

    predicate Over() { status == Completed || status == Failed }
  }

  /** What the console hears about a call, and four bookkeeping marks it does not hear. */
  datatype Kind =
    | CallStarted | CallRinging | EmployeeRinging | EmployeePickedUp | CustomerDialing | CallBridged | CallAnswered
    | CallForwarding | CallVoicemail | CallMissed | CallCompleted | CallFailed
    | MenuSelected | MenuFallback
    | RecordingStarted | RecordingRefused | RecordingStopped | AnnouncementFailed | RecordingDeleted
    // A fallback round was written; a pick-up was cut short by an unreachable Asterisk;
    // a menu's caller went on to the no-answer path although answered; a menu took the call.
    | FallbackRound | PickUpInterrupted | Reopened | MenuOpened

  datatype Entry = Entry(call: CallId, kind: Kind)

  /** The persistent half of the service: the call table in creation order, and the trace of what was told. */
  datatype Core = Core(calls: map<CallId, Call>, order: seq<CallId>, trace: seq<Entry>)

  datatype Live = Live(channel: Channel, up: bool)

  datatype Request =
    | Hangup(channel: Channel)
    | Originate(channel: Channel, target: string)
    | Answer(channel: Channel)
    | PlayPrompt(channel: Channel, attempt: nat, stock: bool)
    | StopPrompt(call: CallId, attempt: nat)
    | Continue(channel: Channel, mailbox: string)
    | CreateBridge(call: CallId)
    | AddToBridge(call: CallId, channel: Channel)
    | DestroyBridge(call: CallId)
    | Record(call: CallId)
    | Announce(call: CallId)
    | StopRecording(call: CallId)
    | FindRecording(call: CallId)
    | DeleteRecording(call: CallId)
    | ListChannels

  /** Asterisk did it (and lists the live channels when asked), refused it, or could not be reached. */
  datatype Reply = Done(live: seq<Live>) | Refused | Unreachable

  /** What the stored journey says about a call on one number. */
  datatype Plan = Plan(
    menu: bool, destinations: seq<string>, mailbox: string, forward: string, fallbacks: seq<string>,
    fallback: string, fallbackDestinations: seq<string>,
    keyMap: map<string, string>, extensions: seq<string>, attempts: nat, timeout: nat)

  datatype MenuSession = MenuSession(
    call: CallId, extension: string, number: string, plan: Plan, menu: IvrMenu.Menu, state: IvrMenu.Session)

  datatype State = State(core: Core, legIndex: map<Channel, CallId>, sessions: map<Channel, MenuSession>, log: seq<Request>)

  /** Whose desk handling applies: the account of an extension, or of a number. */
  datatype Account = OfExtension(key: string) | OfNumber(number: string)

  /** Where a number dialled by the panel leads. */
  datatype Route = Carrier | Local(extension: string) | OutOfService

  datatype Recorder = Off | On(announcement: bool)

  /** An inbound call the tables admit: the device key and the spelling of the line. */
  datatype Admission = Admission(extension: string, number: string)

  /**
   * Everything one handler does not decide itself: the clock, Asterisk's reply to the n-th request ever
   * made, and the settings tables as they stand during that handler.
   */
  datatype World = World(
    now: nat,
    cutoff: nat,
    reply: (nat, Request) -> Reply,
    admit: (string, string) -> Option<Admission>,
    journey: (string, string) -> Plan,
    desk: (Plan, seq<string>, string, Account) -> Plan,
    endpoints: (string, string) -> seq<string>,
    offered: (string, string) -> seq<string>,
    route: string -> Route,
    recorder: string -> Recorder,
    waiting: seq<Channel>)

  datatype Event =
    | StartCall(id: CallId, extension: string, phone: string, number: string)
    | Arrived(channel: Channel, inbound: bool, did: string, extension: string, caller: string, id: CallId)
    | WentUp(channel: Channel)
    | Gone(channel: Channel)
    | Dtmf(channel: Channel, digit: string)
    | RecordingEnded(id: CallId, failed: bool)
    | MenuClock
    | HangupCall(id: CallId)
    | Reconcile
    | Retention
    | Restart

  /** How a handler ended: `ok` is false when Asterisk could not be reached and the rest of it was skipped. */
  datatype Outcome = Outcome(state: State, ok: bool)

  const NEW_STATE: State := State(Core(map[], [], []), map[], map[], [])

  // ---------------------------------------------------------------- the call table

  /** Rewrite one record. */
  function Put(core: Core, id: CallId, call: Call): Core { core.(calls := core.calls[id := call]) }

  /** Tell the console. */
  function Note(core: Core, id: CallId, kind: Kind): Core { core.(trace := core.trace + [Entry(id, kind)]) }

  /** Rewrite one record and tell the console. */
  function Save(core: Core, id: CallId, call: Call, kind: Kind): Core { Note(Put(core, id, call), id, kind) }

  function Create(core: Core, id: CallId, call: Call): Core {
    Save(core.(order := core.order + [id]), id, call, CallStarted)
  }

  /** The newest call that names this channel as its employee or customer channel. */
  function FindByChannel(core: Core, order: seq<CallId>, channel: Channel): (r: Option<CallId>)
    ensures r.Some? ==> r.value in core.calls
  {
    if order == [] then None
    else
      var id := order[|order| - 1];
      if id in core.calls && (core.calls[id].employee == channel || core.calls[id].customer == Some(channel))
      then Some(id)
      else FindByChannel(core, order[..|order| - 1], channel)
  }

  function CallForChannel(s: State, channel: Channel): (r: Option<CallId>)
    ensures r.Some? ==> r.value in s.core.calls
  {
    if channel in s.legIndex && s.legIndex[channel] in s.core.calls then Some(s.legIndex[channel])
    else FindByChannel(s.core, s.core.order, channel)
  }

  function Channels(legs: seq<Leg>): (r: seq<Channel>)
    ensures |r| == |legs|
    ensures forall i :: 0 <= i < |r| ==> r[i] == legs[i].channel
  {
    seq(|legs|, i requires 0 <= i < |legs| => legs[i].channel)
  }

  /** The channel is named as one of this call's far-side legs. */
  predicate FarLeg(channel: Channel, id: CallId) { channel.Customer? && channel.call == id }

  // ---------------------------------------------------------------- requests

  /** Make one request; its reply is `w.reply(|s.log|, request)`. */
  function Ask(s: State, request: Request): State { s.(log := s.log + [request]) }

  function ReplyTo(s: State, w: World, request: Request): Reply { w.reply(|s.log|, request) }
}
