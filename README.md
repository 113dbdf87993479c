# salpytools: lifecycle transitions, command acknowledgment and polling subscribers

This project models the core of `salpytools`, a Python layer over the SAL/DDS
publish/subscribe transport. The core has three parts:

- **The lifecycle tables** of `states.py`:
  - the command → target state map, with its two aliases;
  - the state numbering 0..6;
  - the 7 × 7 matrix of legal transitions.

  `States` holds each table as a constant function. Its lemmas check what the
  tables claim about themselves.
- **The command acknowledgment engine**:
  - `validate_transition` looks up the matrix.
  - `DeviceState` holds the current state and one payload record per event
    (`send_logEvent`).
  - `DDSController` handles one command. It upper-cases the command, checks
    the transition and acknowledges COMPLETE or NOPERM. On success it
    changes the state and then publishes the command's follow-up events.
    `run_command` is its polling loop.

  Acknowledgments, published events and issued commands are entries appended
  to one ordered log, `Transport.Channel.sent`.
- **The polling subscriber** (`DDSSubcriber`):
  - its three run loops keep the last `nkeep` samples and raise a new-data
    flag;
  - `getCurrent`, `resetEvent`, `check_rogueEvent` and `waitEvent` work on
    that buffer and those flags.

  Beside it: `update_myData`, which sets only the known fields of a record,
  and `command_sequencer`, which issues a list of commands in order.

The modules are:

- `Wrappers`: `Option`.
- `Records`: field values, records as maps from field name to value, and
  `update_myData`.
- `Transport`: ack codes, log entries and the channel.
- `States`
- `Device`: `validate_transition`, `DeviceState`, `DDSController`.
- `Subscriber`
- `Sequencer`

Each state-changing operation is a method, on a class where the source
updates an object's fields. Its `ensures`
ties the whole new state, and what it appends to the log, to a function of
the old state. The properties are lemmas about those functions.

Where the code and its description disagree, the model follows the code:

- A controller built for `ENTER_CONTROL` publishes only `summaryState` after
  its acknowledgment. The dispatch compares the upper-cased command with
  `ENTERCONTROL` (salpylib.py:265), and `"ENTER_CONTROL".upper()` is not that
  string. The topic spelling `enterControl` does publish `settingVersions`
  first (`Device.EnterControlFollowUpsBySpelling`).
- An event whose time stamp equals `after_timeStamp` is not rogue: only a
  strictly older one is (salpylib.py:496-497).
- `command_sequencer` attaches `settingsToApply = "normal"` only to commands
  spelled exactly `start` or `Start` (salpylib.py:689).

Foreign inputs become parameters:

- The transport clock (`getCurrentTime`) is `now`.
- Each transport read (`getNextSample_*`, `getEvent_*`, `acceptCommand_*`) is
  a `Poll` or a command id given by the caller.
- The reply of `waitForCompletion_*` is a given `AckCode`.
- The wall clock of `waitEvent` is counted in ticks, one per pass of its
  loop. Between two passes the event loop makes one read.

## Model

| member | source | states |
|---|---|---|
| States.NextStateTargetsAreStates | python/salpytools/states.py:32-60 | every target state of a command is a key of the state numbering, so a controller's lookup cannot fail |
| States.AliasesResolveIdentically | python/salpytools/states.py:33-44 | ENTERCONTROL and ENTER_CONTROL both lead to STANDBY; EXITCONTROL and EXIT_CONTROL both lead to OFFLINE |
| States.EnumerationIsBijection | python/salpytools/states.py:53-60 | the numbering names exactly the seven states and maps them one-to-one onto 0..6, the matrix dimensions |
| States.StateNamesAreEnumerated | python/salpytools/states.py:46-60 | the five library-numbered names are numbered states; INITIAL and FINAL are not among them |
| States.MatrixIsSquare | python/salpytools/states.py:83-84 | the matrix is 7 rows of 7 cells |
| States.MatrixRows | python/salpytools/states.py:84-96 | the matrix is all false except the twelve assigned cells, row by row |
| States.ExactlyTwelveLegal | python/salpytools/states.py:84-96 | exactly twelve cells are true, and a cell is true iff it is one of the assigned coordinates |
| States.NoSelfTransitions | python/salpytools/states.py:98-105 | no diagonal cell is true: no state may move to itself |
| States.SinksAndInitial | python/salpytools/states.py:76-96 | FAULT and FINAL have no legal successor; INITIAL may only move to STANDBY |
| States.MatrixMatchesCommentTable | python/salpytools/states.py:64-96 | for every pair of states, the coded cell is true iff the comment table marks it TRUE |
| Records.UpdateMyData | python/salpytools/salpylib.py:658-667 | the field set is unchanged; a field named in the keyword arguments takes the given value; other fields keep theirs; unknown keys are ignored |
| Records.UpdatedFromIsUpdated | python/salpytools/salpylib.py:658-667 | that description determines the record: it holds exactly for `Updated(data, kwargs)` |
| Device.Upper | python/salpytools/salpylib.py:201 | upper-casing keeps the length and upper-cases each character in place: no lower-case ASCII letter is left, and every other character is kept |
| Device.UpperIsIdempotent | python/salpytools/salpylib.py:201 | upper-casing twice gives the same as upper-casing once |
| Device.TargetState | python/salpytools/salpylib.py:211-212 | a command has a target iff its upper-cased name is in the command map, and the target is always a numbered state |
| Device.EnterControlSpellingsAgree | python/salpytools/salpylib.py:201-212 | controllers for `enterControl` and `ENTER_CONTROL` both move to STANDBY |
| Device.ExitControlSpellingsAgree | python/salpytools/salpylib.py:201-212 | controllers for `exitControl` and `EXIT_CONTROL` both move to OFFLINE |
| Device.EnterControlFollowUpsBySpelling | python/salpytools/salpylib.py:264-287 | `enterControl` publishes settingVersions then summaryState, while `ENTER_CONTROL` publishes summaryState alone |
| Device.ValidateTransition | python/salpytools/salpylib.py:296-307 | an answer exists iff both names are numbered states (otherwise the lookup fails) |
| Device.ValidateTransitionFollowsCommentTable | python/salpytools/salpylib.py:296-307 | on state names, validation answers true iff the comment table allows the move |
| Device.EnableFromOfflineRejected | python/salpytools/salpylib.py:296-307 | OFFLINE → ENABLED is rejected |
| Device.RepeatedTransitionRejected | python/salpytools/salpylib.py:296-307 | once a move to `t` is legal, moving from `t` to `t` again is rejected |
| Device.WithDefaultsFields | python/salpytools/salpylib.py:140-141 | the keyword arguments gain `timestamp` (the clock) and `priority` (1) where absent and nothing else; given values win |
| Device.EventDefaultsFields | python/salpytools/salpylib.py:144-152 | summaryState gets the current state's number; settingsApplied gets the device settings when there are some; the key set grows by exactly that field and every other field is untouched |
| Device.SentRecordField | python/salpytools/salpylib.py:137-157 | one field of a sent record: present iff the old record has it or it is the event-specific field; its value is the keyword argument, else the clock for `timestamp`, else 1 for `priority`, else the event-specific value, else the old one |
| Device.SentRecordFields | python/salpytools/salpylib.py:137-157 | the whole sent record: the old fields plus the event-specific one, each with the value of that precedence |
| Device.SendOne | python/salpytools/salpylib.py:137-166 | one send keeps the set of records, publishes exactly one event of that name, and stores its payload as the record |
| Device.SendOneKeepsPriorities | python/salpytools/salpylib.py:140-142 | after a send every record still has the integer priority the next send reads |
| Device.SendOneFacts | python/salpytools/salpylib.py:137-166 | a send replaces only the named record, by the sent record, and publishes it with the priority read before the update, the clock as `timestamp` unless given, every given field, and for summaryState the state number |
| Device.SendAll | python/salpytools/salpylib.py:264-287 | sends one after another keep the set of records and publish one event per send |
| Device.SendAllKeepsOthers | python/salpytools/salpylib.py:264-287 | a record no send is addressed to is kept |
| Device.SendAllEvents | python/salpytools/salpylib.py:264-287 | for sends to distinct events, the i-th event is what that send alone would publish from the original records |
| Device.SendAllRecords | python/salpytools/salpylib.py:264-287 | for sends to distinct events, each sent-to record ends as its event's payload |
| Device.FollowUpSendsShape | python/salpytools/salpylib.py:264-287 | the follow-ups of each command are sends to its follow-up events, in order, to distinct events, giving neither priority nor timestamp |
| Device.DefaultEventListServesEveryCommand | python/salpytools/salpylib.py:86-91 | the default event list holds every event any command's follow-ups send |
| Device.FollowUps | python/salpytools/salpylib.py:264-287 | the follow-ups keep the set of records and publish one event per follow-up event |
| Device.FollowUpsPublished | python/salpytools/salpylib.py:264-287 | the follow-up events in order, stamped with the clock, each published with the priority its record had and carrying priority 1, its payload the sent record built from the original one |
| Device.FollowUpsEndWithState | python/salpytools/salpylib.py:264-287 | the last follow-up of every command is summaryState with the state number |
| Device.EnterControlRecommendsNormal | python/salpytools/salpylib.py:265-266 | ENTERCONTROL's first event recommends the "normal" settings version |
| Device.StartReportsSettingsMatch | python/salpytools/salpylib.py:283-284 | START's second event carries `appliedSettingsMatchStartIsTrue` 1 |
| Device.FollowUpsRecords | python/salpytools/salpylib.py:264-287 | after the follow-ups each sent-to record is its event's payload and every other record is kept |
| Device.Reply | python/salpytools/salpylib.py:254-293 | a reply keeps the set of records |
| Device.ReplyReport | python/salpytools/salpylib.py:254-293 | legal move: the COMPLETE ack first, then the follow-up events in order, stamped, the last summaryState with the new state's number, and the records of the follow-ups; illegal move: only the NOPERM ack with the warning text, and every record kept |
| Device.ReplyAcknowledgesOnce | python/salpytools/salpylib.py:254-293 | a reply publishes exactly one acknowledgment, for its id: COMPLETE for a legal move, NOPERM otherwise |
| Device.StateAfter | python/salpytools/salpylib.py:246-263 | after any stream the state is the starting one or the target; which of the two is fixed by `CommandStreamSettles` |
| Device.RunLog | python/salpytools/salpylib.py:246-263 | a stream of polls keeps the set of records |
| Device.DeviceState.constructor | python/salpytools/salpylib.py:86-109 | starts in the default state with one fresh record per subscribed event |
| Device.DeviceState.SendLogEvent | python/salpytools/salpylib.py:137-166 | the records and the appended event are those of `SendOne`: the record becomes the defaults updated by the keyword arguments, only that record changes, and one event is published with the priority read before the update (`SendOneFacts`); state and settings are kept |
| Device.Controller.constructor | python/salpytools/salpylib.py:196-212 | the controller keeps the upper-cased command and its target state |
| Device.Controller.ReplyToTransition | python/salpytools/salpylib.py:254-293 | accepted iff the matrix allows the move; accepted: the state becomes the target; rejected: it is unchanged; the settings are kept; the records and the appended log are those of `Reply`, which `ReplyReport` spells out |
| Device.Controller.PublishFollowUps | python/salpytools/salpylib.py:264-287 | the records and the appended events are those of `FollowUps` for the command, in the new state; state and settings are kept |
| Device.Controller.PublishEnterControlEvents | python/salpytools/salpylib.py:265-267 | ENTERCONTROL: the records and events of settingVersions recommending "normal", then summaryState, as `FollowUps` gives them |
| Device.Controller.PublishStartEvents | python/salpytools/salpylib.py:268-285 | START: the records and events of settingsApplied, appliedSettingsMatchStart with the flag 1, then summaryState, as `FollowUps` gives them |
| Device.Controller.PublishStateEvent | python/salpytools/salpylib.py:286-287 | any other command: the record and event of summaryState alone, as `FollowUps` gives them |
| Device.Controller.HandlePoll | python/salpytools/salpylib.py:248-251 | a positive command id is decided, marks the controller as having received a command, and leaves the records and log of `Reply`; any other id leaves state, records, settings and log unchanged |
| Device.Controller.RunCommand | python/salpytools/salpylib.py:246-252 | over a stream of polled ids, the state, the decisions, the records and the appended log are those of `StateAfter`, `Decisions` and `RunLog`; the received flag is raised iff some id was positive |
| Device.CommandStreamSettles | python/salpytools/salpylib.py:246-263 | after any stream of ids, the device is in the target state iff some command arrived and the first transition was legal; otherwise it is where it started |
| Device.OnlyFirstArrivalAccepted | python/salpytools/salpylib.py:246-263 | there is exactly one decision per received id; the first is accepted iff the transition is legal; every later one is refused |
| Device.RunLogRecords | python/salpytools/salpylib.py:246-263 | over any stream the records are those the follow-ups of the first arrival leave when that arrival was accepted, and the original ones otherwise |
| Device.RunLogAcknowledgesEachArrival | python/salpytools/salpylib.py:246-263 | the log of a stream has one acknowledgment per received id, in order, for that id, COMPLETE when its decision accepted the move and NOPERM otherwise |
| Subscriber.KeepLastIsSuffix | python/salpytools/salpylib.py:385 | for `nkeep >= 1`, `s[-nkeep:]` is the suffix of length `min(len(s), nkeep)` |
| Subscriber.KeepLastAppend | python/salpytools/salpylib.py:385 | cutting before appending changes nothing once the result is cut again |
| Subscriber.ZeroKeepsEverything | python/salpytools/salpylib.py:385 | with `nkeep` 0 the list is never cut, because `s[-0:]` is all of `s` |
| Subscriber.PollStepReceived | python/salpytools/salpylib.py:380-411 | a received read leaves at most `nkeep` samples ending in the new one, equal to the last `nkeep` of old history plus the sample, with the kind's flag raised and `timeoutEvent` kept |
| Subscriber.PollStepMissed | python/salpytools/salpylib.py:380-411 | a read that receives nothing changes neither history nor flags; only a command read stores its return value as the id |
| Subscriber.RunKeepsLastSamples | python/salpytools/salpylib.py:380-411 | after any run, the history is the last `nkeep` of the old history followed by all received samples, or is unchanged if nothing arrived |
| Subscriber.AliasedHistoryRepeatsLatest | python/salpytools/salpylib.py:382-385 | two different samples in a row: the history as the code keeps it shows the second twice |
| Subscriber.RogueEvent | python/salpytools/salpylib.py:483-505 | rogue iff `after >= 0`, a time stamp was recorded, and it is strictly older than `after`; an equal stamp is not rogue |
| Subscriber.Subscriber.CheckRogueEvent | python/salpytools/salpylib.py:483-505 | the same decision on the subscriber's recorded time stamp |
| Subscriber.Subscriber.constructor | python/salpytools/salpylib.py:314-378 | after the run preamble the history is empty and every flag is lowered |
| Subscriber.Subscriber.PollStep | python/salpytools/salpylib.py:380-411 | one pass of the run loop moves the subscriber to `Polled` of its old state |
| Subscriber.Subscriber.Run | python/salpytools/salpylib.py:380-411 | a run over a stream of reads moves the subscriber to `PolledAll` of its old state |
| Subscriber.Subscriber.GetCurrent | python/salpytools/salpylib.py:414-426 | non-empty history: returns the last sample, clears newTelem and newEvent but not newCommand, and keeps the history. Empty history: returns nothing if `getNone`, otherwise the bare record, and changes nothing |
| Subscriber.Subscriber.ResetEvent | python/salpytools/salpylib.py:507-509 | lowers newEvent and nothing else |
| Subscriber.Wait | python/salpytools/salpylib.py:459-481 | how a wait ends: `true` exactly with a pending event that is not rogue, and `false` only with `timeoutEvent` raised; it does not raise `timeoutEvent` on a `true` from a state where it was lowered |
| Subscriber.WaitSucceedsIff | python/salpytools/salpylib.py:459-481 | an event wait ends with `true` iff an event that is not rogue is pending, or some read delivers one and no pass before it with nothing pending is past the limit; a rogue event is dropped and the wait goes on without a look at the clock |
| Subscriber.StaleThenFreshArrives | python/salpytools/salpylib.py:463-479 | a stale event then a fresh one ends the wait with `true`, even with a limit of one tick; the stale event alone ends it with `false` |
| Subscriber.StaleEventsTimeOut | python/salpytools/salpylib.py:459-481 | if every delivered event is stale and nothing is pending, the wait ends with `false` and `timeoutEvent` raised |
| Subscriber.FreshFirstArrives | python/salpytools/salpylib.py:459-481 | if the first read delivers a fresh event and the limit allows the first pass, the wait ends with `true` |
| Subscriber.NonEventTimesOut | python/salpytools/salpylib.py:459-481 | a telemetry or command subscriber with nothing pending never ends a wait with `true` |
| Subscriber.Subscriber.WaitEvent | python/salpytools/salpylib.py:437-481 | the result and the whole new state are those of `Wait` from the old state with `timeoutEvent` lowered, with a limit of the subscriber's own timeout when the argument is missing or zero (lines 453-454); hence the result is the event flag, true only for an event that is not rogue, false only with the timeout flag raised, and the cases of the lemmas above |
| Sequencer.CommandSequencer | python/salpytools/salpylib.py:670-704 | one issue per command, in list order, each with its prepared record; the returned report, which stands for the "timed out" log lines at lines 698-699, lists the commands whose wait answered NOACK |
| Sequencer.IssuedInOrder | python/salpytools/salpylib.py:684-695 | the i-th issued command is `commands[i]` with its prepared record |
| Sequencer.StartPayload | python/salpytools/salpylib.py:689-690 | a start command's record carries `settingsToApply = "normal"`; any other command's record is its schema record |
| Sequencer.TimedOutAreTheNoAcks | python/salpytools/salpylib.py:692-699 | a command is in the report iff some wait for it answered NOACK; the report is no longer than the command list |
| Sequencer.TimedOutExtremes | python/salpytools/salpylib.py:692-699 | if every wait completes, nothing is reported; if every wait times out, every command is reported, in order |

## Left out

- `load_SALPYlib` and the `getattr` lookups of generated classes and bindings are foreign module loading. A schema record is a given value.
- Transport calls are not modelled as code. These are `salProcessor`, `salEventPub`, `salTelemetrySub`, `salEventSub`, `getCurrentTime`, `logEvent_*`, `ackCommand_*`, `issueCommand_*` and `salShutdown`. Their effects are log entries and their results are parameters.
- A transport read that fails is assumed to leave the record as it was. The bindings that decide this are not part of this model.
- Threads are left out. The controllers and the subscriber thread share `DeviceState` and the buffers without synchronisation; the model is one sequential handler. `waitEvent` sees one read per tick of its loop.
- `time.sleep` pacing is left out: the `tsleep` of send_logEvent and the loops, and the `sleep_time` of command_sequencer.
- The `tsleep` argument of `waitEvent` is left out. The wall clock is ticks, so the timeout is already counted in ticks.
- The stdout spinner and all logging are left out.
- `getCurrentTelemetry`, `getCurrentEvent` and `getCurrentCommand` are not modelled separately: each only calls `getCurrent`.
- `DeviceState.get_current_state`, `subscribe_list` and `subscribe_logEvent` are left out: they are attribute access and transport setup.
- `DeviceState.load_state_enumeration` is left out: it reads state numbers from the generated library. The model always uses the fallback numbering of `states.py`.
- `DDSSend` and `purge_*` are left out. They are thin senders and transport session plumbing.
- The Python exceptions are replaced. An unknown state name in `validate_transition` is `None`. An unknown command and a command missing from the schemas are preconditions of `Controller.constructor` and of `CommandSequencer`, because the source fails there, with a KeyError at salpylib.py:212 or an AttributeError at line 685. A `Stype` other than the three is unrepresentable (`Kind`).
- Device.DeviceState.constructor: requires the default state to be a numbered state. `DeviceState.__init__` (salpylib.py:93) stores any name; an unknown one is a configuration error that surfaces only at the first command, as a KeyError in `validate_transition` (line 300) or in the first summaryState send (line 146).
- Device.Controller.constructor: requires the records to hold every event the command's follow-ups send. `DDSController.__init__` (salpylib.py:196-212) checks nothing; with an event list that lacks one, the source acknowledges COMPLETE, moves the state, and then fails with a KeyError at line 140 inside the follow-up send, ending the `run_command` thread.
- Device.DeviceState.SendLogEvent: requires `eventname` to be a subscribed event, for which the source fails with a KeyError at line 140, and a `priority` keyword argument, when given, to be a number, since the next send converts it with `int(...)` at line 142.
- Device.DeviceState.constructor: assumes every schema record has an integer `priority`. `send_logEvent` converts it with `int(...)`, which the model does not reproduce for other values.
- The follow-up events of one reply all read the same clock value `now`. The source reads the clock once per send.
- Device.Controller.ReplyToTransition: assumes the START command's record has `configure` or `settingsToApply`, and does not carry that record. The source only logs the field it finds (salpylib.py:275-280); when the record has neither, the `except` branch raises AttributeError after the COMPLETE acknowledgment and the state change, so no follow-up event is published and the `run_command` thread ends. The model always publishes the three START events.
- Device.Upper: only ASCII letters are upper-cased; Python's `str.upper` also maps other characters.
- Time stamps are integers, not floats. A `timeStamp` field that is not a number counts as no time stamp.
- The field set that the source obtains by `inspect.getmembers` is the key set of the record map.
- Aliasing of the mutable record objects is not modelled: records are values, except where the Findings below name it.

## Findings

| source | as written | input that shows it | evidently intended | confidence | as-written member | corrected member |
|---|---|---|---|---|---|---|
| python/salpytools/salpylib.py:384 | every run loop appends the one `self.myData` object that the next read fills in again (also lines 395 and 408), so all buffer entries are the latest sample | two telemetry reads, first sample `a`, then `b` with `b` different from `a`: the buffer reads `[b, b]` | a history of the last `nkeep` distinct samples, newest last, `[a, b]` here | not executed; depends on the bindings refilling the same object, as the calls `getNextSample(self.myData)` suggest | Subscriber.AliasedHistoryRepeatsLatest | Subscriber.RunKeepsLastSamples |
