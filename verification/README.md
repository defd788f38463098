# EngineerIP telephony: a verified model

This project models the call engine, the configuration writers and the editing tools of a small telephony
platform, and proves what they promise. It is written in Dafny 4.11 and uses nothing but its own modules;
`dafny verify dfyconfig.toml` checks all of it.

| modules | what they model |
|---|---|
| `CallRecords`, `CallSteps`, `CallService` | the call engine: one atomic step per event over the call table, the leg index, the open menus, the trace the console hears and every request made of Asterisk; `CallService` is the object that takes the steps in place |
| `CallInvariants`, `CallLaws`, `CallFrames`, `CallRuns`, `CallGenuine` | what every step keeps, what it leaves alone, what holds over every run, and what holds over runs whose events name only channels that exist |
| `CallLadder`, `CallNoAnswer`, `CallOutcomes`, `CallPickUps`, `CallTurns`, `CallEndings` | when the no-answer path moves a call on and what it asks for and writes, how each start, choice and pick-up comes out, who is joined to whom, what a menu's turns do, whose end ends a call |
| `CallRecordings`, `CallSweeps`, `CallRecovery`, `CallRestart` | what becomes of recordings over whole runs and in each sweep, and what a restarted worker makes of every call |
| `CallRequests`, `CallLegs`, `CallMenus`, `CallScenarios`, `CallMishaps` | what is hung up, how legs are named, how often the menu prompts, and concrete runs that show the exceptions are real |
| `IvrMenu`, `IvrTiming` | the menu that collects digits, and when it decides |
| `ConfigSync`, `ConfigRenders`, `ConfigReloads`, `ConfigScenarios` | several lock-holding writers, their markers, the boot helper and an Asterisk that may fail or die at any point; how a render reaches the disk and Asterisk; what the plain reloads bring in; and runs that show what is lost |
| `DialRules`, `DialPlan`, `DialPlanLaws`, `DialPlanMeaning` | the dial plan compiler, Asterisk's matching, and that the one means the other |
| `RouteNodes`, `InboundPlan`, `InboundLaws`, `InboundMeaning`, `DeskLaws` | journeys: planning a call, what the plan means in terms of the stored rows and steps, and what each desk's own flow makes of it |
| `Mailboxes`, `MailboxLaws`, `FlowSaves`, `FlowEdits`, `RingSources` | the mailboxes that must exist, saving a journey past the validator, editing which numbers ring a desk |
| `NginxLexer`, `NginxLexerLaws`, `NginxReading`, `NginxBlocks`, `NginxTrees` | the tokenizer and the block parser, that they read back what was written, and which texts they accept |
| `NginxParts`, `NginxSplice`, `NginxRoute`, `NginxChoice`, `NginxTemplate`, `NginxInstall` | the splice of a route into a configuration, exactly when there is one, and its installation with rollback |
| `VoicemailFolder`, `VoicemailStore`, `VoicemailLaws` | mailbox folders on disk as sequences of messages |
| `IdentityMigration`, `Calendar`, `Billing`, `PeakSweep`, `Resampler` | placing extensions on lines, billing periods, the concurrency peak, streaming 8 kHz audio as 16 kHz |
| `Wrappers`, `ExtensionKeys`, `Directory` | optional values, extension keys and the shared tables |

Asterisk, AMI, the network and the clock are never trusted. Every request to Asterisk gets its answer from an
arbitrary function of how many requests came before it: done, refused, or not reachable at all. A refused
hang-up is ignored as the source ignores it; an unreachable Asterisk ends the handler where the source's
exception would. The settings tables are arbitrary functions that may change between events.

Where the code does something its documentation does not say, the model follows the code and states exactly
when:

- A fallback round can happen twice: a pick-up that an unreachable Asterisk cuts short forgets the round before it
  (`CallRuns.InterruptedPickUpForgetsTheRound`, exactly when by `CallRequests.PickUpIsCutShortIff`, and a run in
  `CallScenarios.TwoRoundsHappen`). Nothing else makes room for a second round, and nothing at all for a second
  forward, as long as events name only the channels Asterisk named itself and legs that were asked for
  (`CallGenuine.AtMostOneRound`, `CallGenuine.AtMostOneForward`). That proviso is needed: an event about a leg nobody
  asked for can send a caller who is still in a menu along the no-answer path, and the menu's choice then makes room
  for one more (`CallMishaps.TwoForwardsHappen`, `CallMishaps.StrayRoundHappens`).
- The no-answer path can run on an answered call, when the caller's own channel is told to be up while the menu still
  asks and Asterisk admits a channel nobody asked for to the bridge (`CallScenarios.ReopenedHappens`).
- A forward can be lost: when two devices disappear together, the end of the first forwards the caller, and the end of
  the second, which the record no longer names, hangs up the forward leg and fails the call
  (`CallMishaps.ForwardIsLost`, exactly when by `CallEndings.StaleEndsIff`).
- The late news of its ending brings back the recording of a call whose recording was deleted
  (`CallRecordings.DeletedStaysAsLong`).
- A caller nobody answered can be left ringing until they give up: when Asterisk is gone at the moment the caller is to be
  hung up, the record stays as it was and no leg is left whose end could move it on (`CallLadder.NowhereToGo`,
  `CallScenarios.StuckHappens`). `CallLadder.RankRisesIff` says exactly when the no-answer path moves a call on.
- A fallback round can name two legs alike (`CallLegs.FallbackNamesClashIff`, `CallLegs.TwoEndpointsThenOneClash`);
  the first round never does (`CallLegs.FirstRoundLegsDiffer`).
- A call becomes answered whenever Asterisk builds its bridge, whether or not an employee picked up
  (`CallRuns.JoinedIffBridgeBuilt`).
- A failed reload of endpoints, voicemail or dial plan alone is not remembered (`ConfigSync.PlainReloadIsNotRetried`):
  an edit is loaded whole exactly when its calls go through (`ConfigReloads.EditIsLoadedIffAccepted`), and
  `ConfigScenarios.EditCanBeForgotten` is a run after which one never is.
- Behind a platform number and a star, digits that number does not have leave through the carrier for a caller of its
  own account, and for a caller of another account too unless a digit and one more character follow
  (`DialPlanLaws.StarInsideTheAccount`, `DialPlanLaws.StarOutsideTheAccount`).
- A menu step that is switched off still answers the number (`InboundLaws.MenuSwitchIsIgnored`).
- A journey that the validator accepted can plan a mailbox nobody configured: bare digits of a device on no line,
  when a device with the same digits is added to the line after the save (`FlowSaves.LaterDeviceMissesTheMailbox`).
  Exactly the numbers on whose line such a device is in service with its own voicemail switched off can meet this
  (`FlowSaves.PlansAreConfiguredIff`), and no flow disagrees when it is saved (`FlowSaves.SavedRouteAgrees`,
  `FlowSaves.SavedDeskAgrees`).
- A number whose discontinuation is asked for a second time, on or after the day it should have stopped and while its
  row is still active, is billed on (`Billing.SecondStopReopensBilling`), and unless the table is edited nothing else
  has that effect (`Billing.BilledOnIffAskedAgain`).

## Model

| member | source | states |
|---|---|---|
| CallRuns.RecordsAreCoherent | app/services.py:1053-1088 | in every run a call is completed or failed exactly when its end time is set; completed implies answered; answered implies an answer time and a bridge; a recording being written has a name and a bridge |
| CallRuns.EndingsAreFinal | app/services.py:1056-1083 | whatever happens after any run, an ended call keeps its status, an answered one stays answered since the same moment, and a recording that is no longer written never is again |
| CallRuns.ToldAtMostOnce | app/services.py:1202-1225 | the console hears of at most one answer and at most one completion of a call |
| CallRuns.CompletedAfterAnswered | app/services.py:1083-1086 | a completion is told only after an answer of the same call |
| CallRuns.CompletedOrFailed | app/services.py:1083-1088 | completion, failure and answer are each told of exactly the calls that are completed, failed and answered, so no call is told both completed and failed |
| CallRuns.LadderIsBounded | app/services.py:578-685 | over any run a call gets one fallback round, one more per pick-up cut short, and one forward, unless a menu choice was made when its no-answer path was under way; then one more of each per choice on the answered call too, and per cut-short pick-up |
| CallGenuine.NoMenuStrays | app/services.py:735-866 | in a run whose events name only channels that exist, no menu choice is made for a call whose no-answer path has a round or a forward behind it |
| CallGenuine.GenuineLadder | app/services.py:578-685 | in such a run every call, with a menu or without, is forwarded once at most, and has one fallback round more than pick-ups of it were cut short at most |
| CallGenuine.AtMostOneForward | app/services.py:602-633 | the console hears of one forward of a call at most in such a run, and of a call without a menu in every run |
| CallGenuine.AtMostOneRound | app/services.py:635-685 | and of one fallback round at most, unless a pick-up of the call was cut short |
| CallMishaps.TwoForwardsHappen | app/services.py:578-633 | the proviso is needed: five events, one about a leg nobody asked for, forward a call twice with one pick-up cut short |
| CallMishaps.StrayRoundHappens | app/services.py:635-685 | and four such events start two rounds with no pick-up cut short |
| CallScenarios.TwoRoundsHappen | app/services.py:578-685 | a run of four events about existing channels, one of them met by an unreachable Asterisk, tells a call of two rounds |
| CallScenarios.ReopenedHappens | app/services.py:790-824 | a run whose events name only the caller's channel runs the no-answer path on an answered call, when Asterisk admits a never-dialled employee channel to the bridge |
| CallScenarios.StuckHappens | app/services.py:596-600 | a run that leaves a caller ringing with no leg left, because Asterisk was gone when the caller was to be hung up |
| CallRuns.InterruptedPickUpForgetsTheRound | app/services.py:1191-1200 | a pick-up during which Asterisk becomes unreachable leaves the call able to fall back, and the next no-answer path starts one more round |
| CallRequests.PickUpIsCutShortIff | app/services.py:398-401 | a pick-up is cut short exactly when Asterisk becomes unreachable while the other devices are being stopped |
| CallRuns.JoinedIffBridgeBuilt | app/services.py:1006-1029 | a running unbridged call is answered exactly when the bridge is made and admits both sides, and failed otherwise |
| CallLaws.NoAnswerKeeps | app/services.py:578-600 | the no-answer path terminates and keeps every invariant, and one that is not cut short strictly raises the rank of an unanswered call |
| CallLadder.RankRisesIff | app/services.py:578-600 | on an unanswered call the no-answer path raises the rank ringing, fallback, forwarding, ended exactly when a round is due, or the mailbox takes the caller, or the forward leg is placed, or the caller can be reached to be hung up; otherwise no record changes |
| CallLadder.NowhereToGo | app/services.py:596-600 | without fallbacks, mailbox and forward, and with Asterisk gone when the caller is to be hung up, nothing of the call changes |
| CallLadder.UnbridgedEndsAlways | app/services.py:1053-1095 | the ending of a call that was never bridged cannot be cut short |
| CallNoAnswer.NoAnswerOutcome | app/services.py:578-685 | the no-answer path of a waiting caller: a due round rings the devices of the desk's fallbacks that Asterisk can ring, each once and in order, or nobody and goes on under the first fallback desk; otherwise the mailbox is offered the caller, or else the phone is dialled, or else the call was missed; each with the requests it makes, in order, and the one record it writes |
| CallNoAnswer.FallbackRoundIs | app/services.py:645-672 | a fallback round asks for every device once, in order; its legs are those that were rung, in order, each numbered ten plus the legs made before it plus the device's place on its desk |
| CallNoAnswer.LastResortIs | app/services.py:584-633 | without a round to come: a mailbox is tried before a phone, the handed caller is not hung up, a placed forward becomes the call's one leg, and a caller with neither is hung up and the call fails |
| CallNoAnswer.LastLegOutcome | app/services.py:1255-1278 | a device of a waiting caller is gone: nothing is written while another leg is listed alive; otherwise the no-answer path runs, under the desk's handling exactly when a menu or a round chose the desk |
| CallNoAnswer.PanelLegOutcome | app/services.py:1255-1278 | a panel call whose employee is gone before anybody answered fails exactly when none of the other devices rings, and then everything it owns is hung up |
| CallNoAnswer.ApartMeans | app/services.py:645-672 | the devices of a round are those of its desks, one desk after the other |
| CallNoAnswer.OneApart | app/services.py:645-672 | those of one desk are its endpoints in order, each at its place on that desk |
| CallNoAnswer.ThroughMeans | app/services.py:554-575 | the devices of a first round likewise, counted through |
| CallNoAnswer.OneThrough | app/services.py:554-575 | those of one desk are its endpoints in order, from the place reached so far |
| CallLaws.RingFallbacksKeeps | app/services.py:635-685 | a fallback round keeps every invariant, whether its devices ring or none can be rung and the path goes on |
| CallLaws.FinalizeKeeps | app/services.py:1053-1095 | ending a call keeps every invariant, and a call whose ending is not cut short is over |
| CallLaws.JoinKeeps | app/services.py:1006-1051 | joining the two sides ends with the call answered or failed, whichever bridge or recording request fails |
| CallLaws.PickUpKeeps | app/services.py:1191-1205 | a pick-up keeps every invariant from whatever point it is cut short at, and one that is not cut short leaves the call answered or failed; on whom, `CallPickUps` says |
| CallPickUps.DevicePickUpOutcome | app/services.py:1189-1205 | when a device of an incoming call picks up and the others can be stopped, each of them is hung up; that device is the employee, under the extension it was rung for; an unbridged call is answered now exactly when the bridge is made and admits that device and the caller, and failed now otherwise; no other device is ever put into the bridge |
| CallPickUps.PickedUpBy | app/services.py:1191-1200 | cut short or not, the device that picked up is the call's from then on, under the extension of a leg on it |
| CallPickUps.PanelPickUpOutcome | app/services.py:1206-1212 | when a device of the panel's employee picks up, the others are hung up, that device is the employee, and the far side is dialled once |
| CallPickUps.FarSideUpOutcome | app/services.py:1213-1226 | when a far side picks up, its other live legs are hung up, and that one and the employee, nobody else, are put into the bridge; answered exactly when it was built |
| CallPickUps.JoinOutcome | app/services.py:1006-1051 | joining puts exactly the two recorded sides into the bridge, keeps both and the extension, and ends answered now exactly when all three requests are done, failed now otherwise |
| CallPickUps.OthersAre | app/services.py:1189-1190 | the devices that are stopped are exactly the other rung ones |
| CallPickUps.FarSideIs | app/services.py:384-396 | the other far legs are exactly those that Asterisk lists as alive and that the call names |
| CallLaws.StartCustomerKeeps | app/services.py:964-1004 | dialling the far side keeps every invariant, in service or not, placed or not |
| CallLaws.HandleGoneKeeps | app/services.py:1228-1284 | a channel's end keeps every invariant, on a ringing, running, answered or ended call |
| CallLaws.ConcludeKeeps | app/services.py:742-866 | whatever the menu decides, its open sessions stay sound, each for an incoming call that has a menu |
| CallLaws.RecoverKeeps | app/services.py:1307-1339 | recovery keeps every invariant and leaves no menu open |
| CallLaws.HandleKeeps | app/services.py:1128-1284 | every event keeps every invariant and undoes nothing settled |
| CallLaws.RunKeeps | app/services.py:1128-1339 | every run of events keeps every invariant and undoes nothing settled |
| CallInvariants.SaveKeeps | app/models.py:144-154 | a write that fits its call's record and books keeps the table, the trace and their agreement |
| CallRequests.FinalizeHangsUpAllButKept | app/services.py:1066-1070 | ending a call asks to hang up every rung leg and the far side except the kept channel, which is never hung up |
| CallRequests.HandedCallerStays | app/services.py:584-595 | a caller the mailbox took over is never hung up while every device that rang is |
| CallRequests.PickUpStopsTheOthers | app/services.py:1191-1200 | whoever picks up first has every other rung device hung up, as long as Asterisk can be reached for each of those hang-ups |
| CallRequests.HangupEndsEverything | app/services.py:886-893 | a hang-up request that is not cut short ends the call and hangs up everything its record owns |
| CallRequests.MissedCallerIsHungUp | app/services.py:598-600 | a caller nobody answered is hung up |
| CallRequests.OtherSideIsHungUp | app/services.py:1279-1284 | when one side of a running call ends, the other side is hung up |
| CallLegs.RungLegsAreIndexed | app/services.py:554-575 | every leg a round makes is one of the call's own names and is found again by its channel |
| CallLegs.FirstRoundLegsDiffer | app/services.py:554-575 | the first round of an incoming call rings every device under a name of its own |
| CallLegs.FallbackNamesClashIff | app/services.py:657-670 | a fallback round in which everything rings names two legs alike exactly when two targets agree on place in the round plus place in their own desk |
| CallLegs.TwoEndpointsThenOneClash | app/services.py:657-670 | a desk on two endpoints followed by another desk already makes two legs of one name |
| CallOutcomes.OutboundOutcome | app/services.py:293-348 | a panel call rings exactly the endpoints of its extension that can be rung, has failed exactly when none can, and leaves a call that exists alone |
| CallOutcomes.ArrivalIsNewIff | app/services.py:483-522 | an arrival starts a call exactly when the tables admit it, no call names its channel and the id is fresh; otherwise no record changes, and only a refused channel is asked to hang up |
| CallOutcomes.RepeatedInbound | app/services.py:519-521 | a channel that is a call's own already starts nothing |
| CallOutcomes.KnownArrival | app/services.py:1160-1176 | a leg of a known call that arrives makes a call that had only been created ring, and changes nothing of any other |
| CallOutcomes.MenuInbound | app/services.py:530-576 | a number with a menu rings nobody: its caller is answered, asked and waited for |
| CallOutcomes.GroupInbound | app/services.py:530-576 | any other number rings exactly the devices of its journey that can be rung, the first standing for the call; with none, the call is past ringing exactly when the no-answer path moves it on |
| CallOutcomes.CustomerOutcome | app/services.py:964-1004 | out of service fails the call and rings nobody; otherwise it goes on dialling when some leg is placed, and has failed exactly when none is and Asterisk is there when the employee is hung up |
| CallOutcomes.ChoiceOutcome | app/services.py:790-824 | a chosen extension rings on exactly its endpoints that can be rung under its own handling; with none, the no-answer path runs under that handling |
| CallOutcomes.FallbackKeyOutcome | app/services.py:826-840 | a caller who chose nothing gets, from a menu with a fallback key, what choosing that key would have given |
| CallOutcomes.NoChoiceOutcome | app/services.py:826-866 | a caller who chose nothing, without a fallback key, gets the rest of the journey under the number's handling, or the no-answer path |
| CallTurns.MenuOpensWith | app/services.py:688-708 | a menu opens on its caller's channel with the mappings and extensions of the journey, two attempts and six seconds unless the journey says otherwise, and never less than two seconds |
| CallTurns.DigitTurns | app/services.py:735-824 | a key that is no digit, or on a channel without a menu, does nothing; a digit is one press of the caller's menu, which listens on, asks again, or closes its session, cuts its prompt and goes on to the choice |
| CallTurns.ClockTurns | app/services.py:868-884 | the clock leaves a menu alone until it is due and then moves its caller along, with digits judged on the line's extensions as they stand |
| CallTurns.ClockGoesOn | app/services.py:868-884 | the clock takes the waiting callers one after the other |
| CallRecordings.FinishedWasFound | app/services.py:1130-1150 | over any run a recording is finished only if Asterisk was asked for it at some step and was reached |
| CallRecordings.DeletedStaysAsLong | app/services.py:1130-1150 | over any continuation of any run a deleted recording stays deleted exactly as long as no late news of its ending, a failure or a finish for which Asterisk can be asked, is handled |
| CallRecordings.ReconcileNeedsEvidence | app/services.py:1286-1305 | reconciling changes only recordings of ended calls that were running or finishing, to finished, each after Asterisk found the recording |
| CallRecordings.RetentionOnlyDeletesOld | app/services.py:1100-1126 | retention deletes only recordings of calls that ended before the cutoff, each by a deletion Asterisk carried out |
| CallSweeps.StartRecordingOutcome | app/services.py:1030-1051 | a call that is to be recorded is named and asks for it; it runs exactly when Asterisk started it, and only then the announcement is asked for |
| CallSweeps.RecordingEndedOutcome | app/services.py:1130-1150 | news of a recording's end is written for a named call alone, as failed, or as finished unless Asterisk is gone |
| CallSweeps.ReconcileFinishesTheFound | app/services.py:1286-1305 | every unfinished recording of an ended call is looked for, and finished exactly when Asterisk has it; nothing else changes |
| CallSweeps.ReconcileMeetsEveryCall | app/services.py:1286-1305 | the sweep goes over every call of the table |
| CallSweeps.RetentionDeletesTheExpired | app/services.py:1100-1126 | a sweep has every expired recording deleted, each exactly when Asterisk did it, until the first request for which Asterisk is gone; nothing else changes |
| CallSweeps.RetentionMeetsEveryCall | app/services.py:1100-1126 | that sweep goes over every call of the table too |
| CallEndings.AnsweredEndsIff | app/services.py:1247-1284 | the end of a channel ends an answered call exactly when the call runs on that channel or the record does not name it, and Asterisk can be reached; the end of another device that rang changes no record |
| CallEndings.StaleEndsIff | app/services.py:1279-1284 | the end of a channel the record no longer names fails a call nobody answered exactly when Asterisk can be reached to hang up what rings now; otherwise no record changes |
| CallEndings.FarSideEndsIff | app/services.py:1255-1277 | when the far side of an unanswered call ends, the call ends exactly when no other far leg is alive |
| CallEndings.FinalizeEndsIff | app/services.py:1053-1095 | an ending goes through exactly when recording and bridge can be stopped, is written with the time of the day, and as completed exactly when the call was answered |
| CallEndings.FinalizeWrites | app/services.py:1053-1095 | an ending writes ending, time and recording of that call alone, tells which ending it was, and has the recording stopped and the bridge taken down, each exactly if there is one |
| CallEndings.StragglerIsHungUp | app/services.py:1184-1188 | a leg that goes up after the call is over is hung up, and nothing else happens |
| CallEndings.LateNewsChangesNothing | app/services.py:1228-1236 | the end of a channel of an ended call is forgotten, and news of a channel that is no call's changes nothing |
| CallMishaps.ForwardIsLost | app/services.py:1228-1284 | a run in which two devices disappear together: the first end forwards the caller, the second hangs up the forward leg and fails the call |
| CallRecovery.RecoveredCallsAreAlive | app/services.py:1307-1339 | after a recovery that reads the live channels and is not cut short, every call is over or had a live side |
| CallRecovery.RecoverOneKeepsLive | app/services.py:1317-1339 | recovering one call touches no other call's record |
| CallRestart.RestartRecovers | app/services.py:1307-1339 | a restart that is not cut short leaves each call as its live sides say: failed now without one, far side dialled when the employee is up and there is none yet, joined when both live and the far side is up, unchanged otherwise; the leg index holds exactly the legs of the calls that had not ended, and no menu is open |
| CallRestart.RecoverOneRecovers | app/services.py:1317-1339 | the same of one call, with the requests' answers it depends on |
| CallRestart.LastLineCounts | app/services.py:1310-1316 | the last line of a listing that names a channel says whether it is up |
| CallService.TelephonyService.HandleEvent | app/services.py:1128-1284 | handling an event in place keeps the invariants, undoes nothing settled, and leaves exactly the state, trace and requests of the step the properties speak of |
| CallService.TelephonyService.InboundNoAnswer | app/services.py:578-600 | the mutual recursion with the fallback round, in place, keeps the invariants and raises the call's rank exactly when the path moves it on |
| CallService.TelephonyService.DevicePickedUp | app/services.py:1191-1205 | a pick-up of an incoming call keeps the invariants, makes the device that picked up the employee, under the extension of a leg on it, and, unless cut short, leaves the call answered or failed |
| CallService.TelephonyService.FinalizeCall | app/services.py:1053-1088 | ending a call in place keeps the invariants, undoes nothing settled, and leaves the call over unless it is cut short; its state is the ending step's |
| CallService.TelephonyService.ChannelUp | app/services.py:1176-1226 | an answer keeps the invariants and undoes nothing settled, whichever side it is; its state is the answer step's |
| CallService.TelephonyService.ChannelDestroyed | app/services.py:1228-1284 | a channel's end keeps the invariants and undoes nothing settled, whoever was on it; its state is that step's |
| CallService.TelephonyService.HangupRequested | app/services.py:886-893 | a hang-up request keeps the invariants and, unless cut short, leaves the call over |
| CallService.TelephonyService.ProcessMenuTimeouts | app/services.py:868-884 | the clock moves every due menu along, in order, until Asterisk cannot be reached, and keeps the invariants |
| CallService.TelephonyService.RecoverIncompleteCalls | app/services.py:1307-1339 | recovery over the table, newest call first, keeps the invariants and undoes nothing settled |
| CallService.Serve | app/ari_worker.py:42-48 | the worker's loop reaches exactly the state that the run of its events describes, with coherent records: ended exactly when the end time is set, completed only if answered, answered only with a time and a bridge |
| IvrMenu.TypingDialsExactly | app/services.py:735-788 | on a menu of equally long extensions, typing digits one by one, with any clock ticks that come too early in between, dials exactly the first key with those digits, and nothing when there is none |
| IvrMenu.EveryMemberIsReachable | app/services.py:742-779 | with one key per number, typing a member's digits dials that member |
| IvrMenu.OnlyOfferedKeys | app/services.py:742-779 | only a mapped target or one of the menu's own keys is ever dialled |
| IvrMenu.FinalVerdict | app/services.py:742-779 | once the caller stops, the menu dials exactly what it offers and asks again otherwise |
| IvrMenu.WaitsWhileItCanGrow | app/services.py:766-779 | while the caller types, the menu waits exactly when the digits can still grow into an extension |
| IvrTiming.DialsAtOnceIff | app/services.py:766-779 | offered digits are dialled at once exactly when no other key begins with them or no key is longer; otherwise the menu waits |
| IvrTiming.MappedVerdict | app/services.py:748-757 | a menu with mapped digits dials what is mapped at once, waits while a mapped one can still come, and asks again otherwise |
| IvrTiming.PressMeans | app/services.py:735-788 | the first six digits count; a menu that waits gives 1.4 seconds for the next and leaves the prompt's clock alone; one that asks again forgets the digits and starts the next attempt's clock; one that gives up has no attempt left |
| IvrTiming.ClockDecides | app/services.py:868-884 | the clock leaves a caller alone until the pause or the prompt's time is over; then the key the digits mean is dialled, and without one the next attempt starts or the menu gives up |
| IvrTiming.SilentPromptsLast | app/services.py:781-788 | over any run, each prompt a silent caller hears has its full time |
| IvrMenu.DueTickMovesOn | app/services.py:868-884 | a due tick closes the session or uses an attempt |
| IvrMenu.PromptsAreBounded | app/services.py:781-788 | whatever is typed, a session plays at most its number of prompts, is moved along at most that often, dials only what is offered, and gives up only when every attempt is used |
| CallMenus.PromptsOverRunsAreBounded | app/services.py:687-788 | over every run of the engine a channel hears the prompt at most as often as the menus it arrived at allow attempts, and an open session has used fewer attempts than its menu allows |
| ConfigSync.NoReloadIsLost | app/telephony_config.py:1110-1222 | in every interleaving, at every crash and for every AMI answer, an owed restart has its marker or is queued, and an owed RTP reload has its marker |
| ConfigSync.SettledMeansLoaded | app/telephony_config.py:1162-1181 | with both markers gone and nothing queued, a running Asterisk has the transports and the ICE map on disk, and no endpoint that is not there |
| ConfigSync.DoKeeps | app/telephony_config.py:1183-1222 | every single step of every process keeps the protocol's invariant: what is owed is marked or queued, and one holder writes at a time; what the steps write, `ConfigRenders` says |
| ConfigSync.RetrySettles | app/telephony_config.py:1162-1166 | from any reachable state with work pending, a retry that meets no failure ends with nothing pending |
| ConfigSync.PlainReloadIsNotRetried | app/telephony_config.py:1205-1222 | a failed plain reload leaves no marker, and a later retry has nothing to do |
| ConfigRenders.RenderReachesTheDisk | app/telephony_config.py:1183-1222 | in any run from a fresh start, each file that the holder is past writing holds what it was given: transports, endpoints and public address of its render, the dial plan and voicemail rendered when written, the ICE map for the published addresses; restart needed or not |
| ConfigRenders.RenderReachesAsterisk | app/telephony_config.py:1183-1222 | a process that leaves the lock with every call accepted leaves all of it on disk, and Asterisk, once any start or queued restart is run to its end, runs exactly that |
| ConfigRenders.BootPublishes | app/telephony_config.py:1110-1153 | before a start, the addresses found are published and exactly these mapped to the public address if it is still valid; nothing else changes |
| ConfigReloads.LeavesLoadedIff | app/telephony_config.py:1205-1222 | in any interleaved run from a fresh start, a process that leaves through a plain reload leaves endpoints, voicemail and dial plan loaded exactly when that call was taken or its part was the same already, and every part after it was the same already |
| ConfigReloads.EditIsLoadedIffAccepted | app/telephony_config.py:1205-1222 | an edit that changed all three files is loaded whole exactly when the first two calls were accepted and the last was taken; otherwise it is not remembered either |
| ConfigScenarios.EditCanBeForgotten | app/telephony_config.py:1205-1222 | a run from a fresh start after which the dial plan on disk is new, the loaded one old, and nothing is owed |
| ConfigScenarios.LockIsNeeded | app/telephony_config.py:1168-1181 | without the lock, a run from a fresh start loses the owed RTP reload |
| DialPlanMeaning.ThreeDigitsStayOnTheLine | app/telephony_config.py:1020-1037 | three digits ring exactly the active extension with those digits on that number, and are out of service exactly when it has none |
| DialPlanMeaning.FullNumbersStayInside | app/telephony_config.py:896-914 | every active platform number, in either spelling and from every context, does what that number answers with and never reaches the carrier |
| DialPlanMeaning.InsideAndOutsideAgree | app/telephony_config.py:1045-1070 | a number called from the carrier enters the application with the extension that rings when it is dialled from inside, and is out of service exactly when it is inside |
| DialPlanMeaning.NumbersAnswerInOrder | app/telephony_config.py:805-824 | from every context inside and from the carrier, in either spelling, a number rings the extension that its own link names on it; without one, that which its customer's fallback names on it; without one, that which the platform's fallback names on it, if that is digits; otherwise its journey's anchor; and is out of service without that |
| DialPlanMeaning.NumberExtensionIsToAnswer | app/telephony_config.py:805-824 | the lookup finds just that extension, read from the number's fields and the extension rows |
| DialPlanMeaning.OneIsToAnswer | app/telephony_config.py:805-824 | there is one answer to which extension that is |
| DialPlanMeaning.NumberlessCallsRing | app/telephony_config.py:1071-1088 | a call delivered without a number rings the platform's default extension, if there is one |
| DialPlanMeaning.ThreeDigitsOfThePlatform | app/telephony_config.py:1020-1037 | among the platform's own devices three digits ring exactly the ownerless, lineless extension that has them |
| DialPlanMeaning.MailboxesDiffer | app/admin.py:139-148 | two extensions never share a mailbox name |
| DialPlanMeaning.MailboxRuleIffConfigured | app/telephony_config.py:1038-1044 | a mailbox has its rule exactly when the extension is configured |
| DialPlanLaws.StarInsideTheAccount | app/telephony_config.py:916-951 | behind the star a caller of the account reaches each of the number's extensions, and unknown digits leave through the carrier |
| DialPlanLaws.StarOutsideTheAccount | app/telephony_config.py:924-951 | a caller of another account hears out of service exactly when a digit and one more character follow the star, and leaves through the carrier otherwise |
| DialPlanLaws.NotOfPlatform | app/telephony_config.py:953-987 | anything else goes to the carrier, to the voicemail login, or nowhere, exactly by its shape |
| DialPlanLaws.RingsOnly | app/telephony_config.py:1020-1037 | whatever is dialled, a context rings only its own extension, the answer of a full number, or an extension of its own account |
| DialPlanLaws.ContextsAreDistinct | app/telephony_config.py:1020-1037 | no context holds two rules for one exten |
| DialRules.BestAnswers | app/telephony_config.py:958-967 | the rule that answers matches and is beaten by no other matching rule |
| InboundPlan.PlanNodes | app/admin.py:3166-3231 | the planner's loop computes the declarative reading of the steps |
| InboundPlan.DeskHandling | app/admin.py:3035-3075 | the loops over desks and their flows compute the eligible fallbacks in order, the switched-off desks and the first phone |
| InboundLaws.DevicesAreTheOpenRingSteps | app/admin.py:3181-3222 | the devices are exactly the allowed members of the enabled ring steps before the first hours step, and after it while open, each once in first order |
| InboundLaws.OwnedNumbersStayInTheAccount | app/admin.py:2961-3014 | every destination, fallback, menu extension and key target of an owned number belongs to its account, and is active when a journey is stored |
| InboundLaws.HandledTwice | app/admin.py:3077-3094 | applying the same desks' handling again changes nothing; what it does, `DeskLaws.HandlingMeans` says |
| DeskLaws.HandlingMeans | app/admin.py:3077-3094 | a device stays among the destinations, in its place, exactly when it was planned and is not a listed desk whose own flow has an own step with ringing off; the fallbacks are the first desk's; a journey's own ending is kept, and otherwise the ending is the first desk's mailbox, or the first forward phone of its flow without one |
| DeskLaws.FirstFallbacks | app/admin.py:3035-3075 | the fallbacks are the allowed other desks that the first desk's flow names, once each and in the order of its steps |
| DeskLaws.DeskMailboxMeans | app/admin.py:3096-3121 | a desk's mailbox is none when its policy sends unanswered calls elsewhere; else that of the first enabled voicemail step of its flow; else its own, if its switch is on and it states no policy; else none |
| InboundLaws.MenuSwitchIsIgnored | app/admin.py:3004-3011 | switching menu steps on or off changes nothing in what a stored journey comes to |
| InboundMeaning.PlannedMeans | app/admin.py:2961-3034 | a number without a journey rings the extension its own link names on it, or the fallback without a link, under that desk's handling; one with a journey follows it, and without an open menu is handled by the desks it rings |
| InboundMeaning.StepsMean | app/admin.py:3166-3231 | the mailbox is that of the first enabled voicemail step that names one, the phone that of the first enabled forward step that has one, and a journey that rings nobody and has no ring step, no ending and no closed hours rings its own extension |
| InboundMeaning.BorrowedMean | app/admin.py:2961-3014 | a journey without menu, hours, voicemail or forward step borrows those of its answering desk, in front, exactly when that desk's flow has a menu or hours |
| InboundMeaning.MenuMeans | app/admin.py:2961-3034 | a number answers with a menu exactly when its steps have one and are not closed; it offers the line's active extensions, maps and falls back only to ones that may ring, and a caller who chooses nothing gets the other steps |
| InboundMeaning.ClosedMeans | app/admin.py:3166-3231 | only the first hours step that is on decides |
| InboundMeaning.HoursMean | app/admin.py:3166-3231 | it is open from its first minute through its last on its days, or on every day without any |
| Mailboxes.ConfiguredVoicemail | app/telephony_config.py:21-67 | the loops over the flows compute the set of mailboxes that must exist |
| MailboxLaws.StepAgreesIff | app/telephony_config.py:35-48 | a voicemail step makes the mailbox it plans configured exactly when its text names its line, or the line has no device with those digits, or the step is on the number's journey and no active device is called by the bare digits |
| FlowSaves.ValidatedStepAgreesIff | app/admin.py:2796-2797 | a voicemail step the validator accepts agrees with the plan exactly when it is not the bare digits of a device on no line that a device on this line carries too |
| FlowSaves.ValidatedFlowsAgreeIff | app/admin.py:2705-2797 | validated flows agree with the plan exactly when no enabled voicemail step is such a clash |
| FlowSaves.PlansAreConfiguredIff | app/admin.py:2961-3121 | on given tables, whatever validated flows are stored, every plan for a number that ends in an active extension's mailbox names a configured one, exactly when no device of the account on no line shares its digits with a device in service on this line whose own switch is off |
| FlowSaves.ValidatedMailboxAnswers | app/telephony_config.py:1038-1044 | on validated flows, without such a device, a plan that ends in an active extension's mailbox hands the caller to a rule that takes the message there |
| FlowSaves.SavedRouteAgrees | app/admin.py:3541-3562 | a saved journey agrees on its number when it is saved |
| FlowSaves.SavedDeskAgrees | app/admin.py:3490-3534 | a saved desk flow agrees on every number when it is saved |
| FlowSaves.LaterDeviceMissesTheMailbox | app/admin.py:2826-2868 | bare digits saved before the line has a device with them are kept, and once it has one the plan hands callers to a mailbox that is not configured |
| FlowEdits.RouteSaveOutcome | app/admin.py:3541-3562 | a journey is saved exactly when the account has the number, nobody else has a journey on it, and the resolved steps name only the account's own devices and are well shaped; then these steps are found for the number, and no other flow or table differs |
| FlowEdits.DeskSaveOutcome | app/admin.py:3490-3531 | a desk's flow likewise, under the one key its target means |
| FlowEdits.ResolveKeyMeans | app/admin.py:2826-2850 | on a number, digits become the line's own key; on a desk, the key of a row that carries them, refused when several do; anything else is kept |
| FlowEdits.ResolvedSteps | app/admin.py:2851-2868 | every step is spelled anew in its place and changed in nothing else, or one of its destinations is refused |
| FlowEdits.AcceptedIff | app/admin.py:2705-2824 | the validator accepts exactly steps that name only the account's own devices, at most a hundred, and are well shaped |
| RingSources.EditLine | app/admin.py:3458-3481 | the loop over one journey's steps computes its edit and whether it changed |
| RingSources.RingSourceUpdates | app/admin.py:3436-3488 | one refused journey refuses the edit; otherwise exactly the changed journeys are updated, in order |
| RingSources.RingsExactlyWhereSelected | app/admin.py:3463-3484 | the desk rings in an enabled step exactly on the selected numbers and is in no ring step of the others |
| RingSources.OthersKeepRinging | app/admin.py:3463-3484 | every other desk's membership is unchanged |
| RingSources.JourneyIsUntouched | app/admin.py:3439-3443 | every step that does not ring is unchanged and in order |
| RingSources.SecondEditIsEmpty | app/admin.py:3436-3488 | the same choice made again updates nothing |
| RingSources.UpdatesAre | app/admin.py:3485-3488 | the updates are exactly the edits of the lines that change |
| RingSources.UnchangedMeansSame | app/admin.py:3485-3488 | a journey left out of the updates is one the edit would not have changed |
| NginxLexer.Tokens | scripts/install-softphone-proxy.py:50-94 | the moving-index loop terminates and computes the tokens of the text |
| NginxLexerLaws.SpansInOrder | scripts/install-softphone-proxy.py:50-94 | token spans lie in the text, increase and do not overlap |
| NginxLexerLaws.GapsAreBlank | scripts/install-softphone-proxy.py:53-60 | all text between tokens is whitespace or comment |
| NginxReading.TextIsRead | scripts/install-softphone-proxy.py:50-94 | every text put together from words, marks, spaces and comments is read as just those words and marks: quotes, escapes and variables mean what they were written for, and no brace inside them is a mark |
| NginxReading.UnclosedIsRefused | scripts/install-softphone-proxy.py:68-84 | a text whose last word has a quote or a variable that is never closed is refused |
| NginxBlocks.Blocks | scripts/install-softphone-proxy.py:107-131 | the stack loop computes the blocks of the text or raises where it does |
| NginxBlocks.NestedOrDisjoint | scripts/install-softphone-proxy.py:107-131 | any two blocks are nested or disjoint |
| NginxBlocks.ParentIsSmallest | scripts/install-softphone-proxy.py:107-131 | each recorded parent is the smallest enclosing block |
| NginxBlocks.DirectiveGoesInnermost | scripts/install-softphone-proxy.py:107-131 | every directive is attached to its innermost block |
| NginxTrees.ItemsAreRead | scripts/install-softphone-proxy.py:107-131 | the stack machine reads a configuration as its tree: every block once, in the order of the opening braces, with its header, spans, parent and own statements in order |
| NginxTrees.BlocksAreNested | scripts/install-softphone-proxy.py:107-131 | a text that is written as a tree has exactly that tree's blocks |
| NginxTrees.ParsesIff | scripts/install-softphone-proxy.py:107-131 | a text is a configuration exactly when it is read as tokens whose braces match, each opening one after words, each closing one and the end after none |
| NginxRoute.SpliceLaw | scripts/install-softphone-proxy.py:178-194 | what is written, whenever `NginxChoice.RendersIff` says it is, parses again, to the same blocks moved along and the route as the one exact route of the same single HTTPS server |
| NginxChoice.RendersIff | scripts/install-softphone-proxy.py:134-194 | a route is written exactly when the text parses, one block is a server that names the domain and listens with TLS, and that server has no exact `/ws` location or a single one that carries the marker |
| NginxChoice.FirstRouteIsInserted | scripts/install-softphone-proxy.py:178-194 | without such a location the route goes in before the server's closing brace |
| NginxChoice.MarkedRouteIsReplaced | scripts/install-softphone-proxy.py:178-194 | with a marked one it takes just that one's place |
| NginxRoute.LastInstallWins | scripts/install-softphone-proxy.py:178-194 | installing one route and then another writes what the second alone writes |
| NginxRoute.InstallIsIdempotent | scripts/install-softphone-proxy.py:178-194 | installing the same route again changes nothing |
| NginxTemplate.TemplateIsOneBlock | scripts/install-softphone-proxy.py:184-187 | a marked route block written for any plain upstream word is a text that the splice laws speak of |
| NginxInstall.Host.ApplyPlan | scripts/install-softphone-proxy.py:280-321 | installed exactly when every needed step goes through; otherwise file and network are as before, and the proxy runs the original again unless its recovery reload fails too |
| NginxInstall.ReinstallWritesNothing | scripts/install-softphone-proxy.py:280-321 | a plan for an installed route finds nothing to write |
| VoicemailFolder.MailFolder.Renumber | app/voicemail.py:178-187 | the two passes put every message file at the index of its number, keep every other file, and overwrite none |
| VoicemailFolder.RenumberedMeans | app/voicemail.py:178-187 | the messages are the same in the same order, numbered 0, 1, 2, … |
| VoicemailStore.Delete | app/voicemail.py:189-203 | deletes the message if it is there, closes the gap, and otherwise changes nothing |
| VoicemailLaws.DeleteRemovesOne | app/voicemail.py:189-203 | exactly that element leaves the sequence |
| VoicemailStore.MarkRead | app/voicemail.py:254-272 | moves the message to the first free number of the read folder and overwrites nothing |
| VoicemailLaws.MarkReadMovesOne | app/voicemail.py:254-272 | the message leaves the one sequence and joins the other, whole |
| VoicemailStore.Adopt | app/voicemail.py:205-252 | the loop moves every message with a text file, one first-free number after another, and overwrites nothing |
| VoicemailLaws.AdoptAppends | app/voicemail.py:205-252 | into a mailbox without gaps the legacy messages are appended in order |
| VoicemailLaws.AdoptLosesNothing | app/voicemail.py:205-252 | whatever gaps there are, every file there before is kept and every adopted message gets a number of its own with all its files |
| VoicemailLaws.SecondAdoptMovesNone | app/voicemail.py:205-252 | a second adoption finds nothing to move |
| IdentityMigration.Place | app/admin.py:627-681 | ids and digits never change, distinct slots stay distinct, a placed row is on its own account's line, the first tried for it that was free, and a row is left over exactly when every line tried holds its digits for somebody else |
| IdentityMigration.KnownMeans | app/admin.py:641-655 | a row's line is the one its key names, else the one it is on already, else none |
| IdentityMigration.TargetsMean | app/admin.py:630-681 | the lines tried for a row are those of its account whose link names its digits, in order, and then the account's main line, the first marked so or else its first |
| Calendar.PeriodContainsToday | app/admin.py:2369-2380 | the computed period contains today |
| Calendar.SamePeriod | app/admin.py:2369-2380 | two days have one period exactly when the second lies within the first's |
| Calendar.PeriodsAreDisjoint | app/admin.py:2369-2380 | different periods of one cycle day do not overlap |
| Calendar.PeriodsAreAdjacent | app/admin.py:2369-2380 | the day after a period ends starts the next |
| Calendar.StopsAfterThePeriod | app/admin.py:2398-2405 | the discontinuation date is the day after the current period ends |
| Billing.Ledger.EnsureMonthlyInvoices | app/admin.py:2363-2390 | the billing loop appends exactly the invoices owed |
| Billing.Ledger.RequestDiscontinuation | app/admin.py:2392-2407 | only an active number of that owner is stopped, on the day after its period ends |
| Billing.NeverInvoicedTwice | app/admin.py:2384-2387 | over any run no number is invoiced twice for one period start and no invoice is withdrawn |
| Billing.EveryoneIsInvoiced | app/admin.py:2363-2388 | after a billing run every number that is owned, in service, not yet stopped and started has the invoice of its period |
| Billing.NewInvoicesAreCurrent | app/admin.py:2363-2388 | a new invoice is for such a number, to its owner and at its price, and covers the day of the run |
| Billing.SweepChangesNoBill | app/admin.py:2045-2052 | a sweep puts a row out of service exactly when its last day has come, changes nothing else of it, and no bill from that day on |
| Billing.NoLaterPeriodIsInvoiced | app/admin.py:2363-2407 | over any run after a discontinuation no later period of the number is invoiced, unless it is asked for again while the row is still active so late that the stop day moves on, or an edit leaves a row that does not stop by then |
| Billing.BilledOnIffAskedAgain | app/admin.py:2392-2407 | after a discontinuation, as long as the table is not edited, a later period can be billed at some point exactly when it is asked for again on or after the stop day while the row is still active |
| Billing.SecondStopReopensBilling | app/admin.py:2392-2407 | a second discontinuation on or after that day, before the row is swept, has a later period invoiced |
| PeakSweep.Peak | app/admin.py:4781-4792 | the sweep's peak is the maximum, over all instants, of the calls in progress |
| PeakSweep.PeakIsTheMaximum | app/admin.py:4781-4792 | no instant is higher and some instant reaches it |
| Resampler.Upsample | app/local_transcription.py:80-110 | however the signal is cut into chunks, what is written is the doubled signal |
| Resampler.DoubledMeans | app/local_transcription.py:98-109 | each sample is followed by the floor of its mean with the next, the last is written twice, and the length doubles |
| Resampler.MeansLieBetween | app/local_transcription.py:98-101 | an interpolated sample lies between its neighbours, at most half a step below their mean |
| Resampler.CutFrames | app/local_transcription.py:155-159 | no byte is lost or reordered, every frame is whole and less than one is left waiting |

## Left out

- Web pages, sessions, HTTP routes, e-mail, SQL, encryption, DNS, PJSIP sections and speech recognition: foreign calls, formatting or tables, without a deep property of their own.
- Races inside one handler: each handler is one atomic step, so the guard against finalising a call twice at once never fires and is not modelled.
- One leg index: the panel's starts and hang-ups and the worker's events share it in the model, while the web process and the worker each hold a service object with a `_leg_index` of their own; a leg that only the other process indexed is found by its record alone.
- The admission of an inbound call (which table rows let a number ring a device) is an arbitrary function that admits or refuses.
- Call duration, disposition, notes, recording format and path, and who is told by which webhook: no effect on the properties.
- Ring timeouts: the model keeps which legs ring and in which order, not for how many seconds; the timeouts in a plan are left out with them.
- CallOutcomes.GroupInbound: an unplaceable provider endpoint counts as a refused request, as the same branch handles both.
- CallNoAnswer.NoAnswerOutcome: the caller still waits; the path of an answered call, which only a stray menu choice can start, keeps the invariants and is not characterised further.
- CallPickUps.DevicePickUpOutcome: the devices of a call were rung for extensions that are not blank, as keys never are; a pick-up that is cut short is described by `CallPickUps.PickedUpBy` and `CallRequests.PickUpStopsTheOthers`.
- CallRecovery.RecoveredCallsAreAlive: says nothing about hanging up the other legs of a call that recovery fails, because the source does not hang them up.
- CallLaws.HandleGoneKeeps: a menu may outlive its call, since the channel's end on an ended call returns before the session is dropped; nothing stronger is claimed.
- IvrMenu.TypingDialsExactly: extensions of one length, as a line's three digits are; for mixed lengths `IvrTiming.DialsAtOnceIff`, `IvrTiming.ClockDecides` and `WaitsWhileItCanGrow` say when the menu decides.
- NginxReading.TextIsRead: comments end with their line; a comment that ends the text without one, and a backslash that ends it, are read as the tokenizer's specification says and have no law of their own.
- ConfigSync.NoReloadIsLost: a missing ICE map counts as an empty one, where the source would mark and write it; files are written in one step each, as the atomic replacement makes them, and the rendered text is a value compared for equality.
- DialPlanMeaning.ThreeDigitsStayOnTheLine: the tables are valid, with distinct numbers of seven to fifteen digits and distinct three-digit extensions per number; the order in which rows are written is not modelled, as no two share an exten.
- DialPlan: what a rule runs after it answers (dial strings, contacts, playback) is one named action, and white space around stored values is not trimmed.
- FlowSaves.ValidatedFlowsAgreeIff: steps are values, so what the validator asks of times, phone numbers, prompts, labels and the explicit no-answer policy of a desk flow is left out, and no agreement depends on it; flows of groups are not planned from and are left out.
- RingSources.RingSourceUpdates: the validator is an arbitrary predicate on the edited steps, so which removals it refuses is not stated, the selection is already checked to be the account's active numbers, and labels are left out.
- NginxRoute.SpliceLaw: the route text is any one well-formed block; `NginxTemplate.TemplateIsOneBlock` shows one family of such texts, with the proxy directive alone and not the template's other directives.
- CallMenus.PromptsOverRunsAreBounded: the stock recording that is asked for when the first cannot be played counts as the same prompt.
- NginxInstall.Host.ApplyPlan: a failing disk write and a network that cannot be left again are not modelled.
- VoicemailFolder.MailFolder.Renumber: folders hold regular files with one suffix each, no leftovers of an interrupted renumbering, and fewer than 10000 messages.
- VoicemailStore.Adopt: the legacy folders that end up empty are not removed in the model.
- IdentityMigration.Place: the flows, profiles and mailboxes rewritten after the placement are not modelled.
- Billing: local and database dates are the same day, and years are unbounded.
- PeakSweep.Peak: calls whose start cannot be read are dropped before the sweep, and a running call ends now.
- Resampler: samples are integers in the 16-bit range; their byte order is not modelled, and audio that is already at 16 kHz passes through unchanged.
