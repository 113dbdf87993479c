/**
 * The command acknowledgment engine (python/salpytools/salpylib.py):
 * `validate_transition`, the `DeviceState` that holds the current state and
 * publishes status events, and the `DDSController` command handler that
 * checks a requested transition, acknowledges it and emits the follow-up
 * events.
 */
module Device {
  import opened Wrappers
  import opened Records
  import opened Transport
  import opened States

  function UpperChar(c: char): char
  {
    if 'a' <= c <= 'z' then (c as int - 32) as char else c
  }

  /** `str.upper()`, on ASCII letters: each character is upper-cased in place.
      The first two clauses describe the construction; the last two say that no
      lower-case letter is left and every other character is kept. */
  function Upper(s: string): (r: string)
    ensures |r| == |s|
    ensures forall i :: 0 <= i < |s| ==> r[i] == UpperChar(s[i])
    ensures forall i :: 0 <= i < |r| ==> !('a' <= r[i] <= 'z')
    ensures forall i :: 0 <= i < |s| && !('a' <= s[i] <= 'z') ==> r[i] == s[i]
  {
    seq(|s|, i requires 0 <= i < |s| => UpperChar(s[i]))
  }

  /** Upper-casing twice is upper-casing once. */
  lemma UpperIsIdempotent(s: string)
    ensures Upper(Upper(s)) == Upper(s)
  {
  }

  /**
   * The state a controller for `command` moves to: `next_state` looked up
   * under the upper-cased command. `None` stands for the KeyError the source
   * raises when it builds a controller for an unknown command.
   */
  function TargetState(command: string): (r: Option<string>)
    ensures r.Some? <==> Upper(command) in NextState()
    ensures r.Some? ==> r.value in StateEnumeration()
  {
    if Upper(command) in NextState() then Some(NextState()[Upper(command)]) else None
  }

  /** Two strings of the same length where each character of `t` is the
      upper case of the one in `s`: `t` is `s` upper-cased. */
  lemma UpperMatches(s: string, t: string)
    requires |s| == |t|
    requires forall i :: 0 <= i < |s| ==> UpperChar(s[i]) == t[i]
    ensures Upper(s) == t
  {
  }

  lemma UpperEnterControl()
    ensures Upper("enterControl") == "ENTERCONTROL"
    ensures Upper("ENTER_CONTROL") == "ENTER_CONTROL"
  {
    var topic, underscored := "enterControl", "ENTER_CONTROL";
    forall i | 0 <= i < |topic| ensures UpperChar(topic[i]) == "ENTERCONTROL"[i] {}
    UpperMatches(topic, "ENTERCONTROL");
    forall i | 0 <= i < |underscored| ensures UpperChar(underscored[i]) == underscored[i] {}
    UpperMatches(underscored, underscored);
  }

  lemma UpperExitControl()
    ensures Upper("exitControl") == "EXITCONTROL"
    ensures Upper("EXIT_CONTROL") == "EXIT_CONTROL"
  {
    var topic, underscored := "exitControl", "EXIT_CONTROL";
    forall i | 0 <= i < |topic| ensures UpperChar(topic[i]) == "EXITCONTROL"[i] {}
    UpperMatches(topic, "EXITCONTROL");
    forall i | 0 <= i < |underscored| ensures UpperChar(underscored[i]) == underscored[i] {}
    UpperMatches(underscored, underscored);
  }

  /** The topic spelling `enterControl` upper-cases to the alias ENTERCONTROL
      and reaches the same state as ENTER_CONTROL. */
  lemma EnterControlSpellingsAgree()
    ensures TargetState("enterControl") == Some("STANDBY")
    ensures TargetState("ENTER_CONTROL") == Some("STANDBY")
  {
    UpperEnterControl();
  }

  /** The follow-up events are chosen on the upper-cased command as given:
      the topic spelling `enterControl` reports its settings version, while
      the underscored ENTER_CONTROL falls through to the state alone. */
  lemma EnterControlFollowUpsBySpelling()
    ensures FollowUpEvents(Upper("enterControl")) == ["settingVersions", "summaryState"]
    ensures FollowUpEvents(Upper("ENTER_CONTROL")) == ["summaryState"]
  {
    UpperEnterControl();
  }

  /** Likewise `exitControl` reaches the same state as EXIT_CONTROL. */
  lemma ExitControlSpellingsAgree()
    ensures TargetState("exitControl") == Some("OFFLINE")
    ensures TargetState("EXIT_CONTROL") == Some("OFFLINE")
  {
    UpperExitControl();
  }

  /**
   * `validate_transition(current_state, new_state)`: the matrix cell at the
   * two states' numbers. `None` stands for the KeyError of an unknown name.
   */
  function ValidateTransition(currentState: string, newState: string): (r: Option<bool>)
    ensures r.Some? <==> currentState in StateEnumeration() && newState in StateEnumeration()
  {
    if currentState in StateEnumeration() && newState in StateEnumeration() then
      var currentIndex := StateEnumeration()[currentState];
      var newIndex := StateEnumeration()[newState];
      Some(StateMatrix()[currentIndex][newIndex])
    else
      None
  }

  /** On state names, the validation answers exactly what the comment table draws. */
  lemma ValidateTransitionFollowsCommentTable()
    ensures forall a, b :: ValidateTransition(Name(a), Name(b)) == Some(b in CommentRow(a))
  {
    MatrixMatchesCommentTable();
  }

  /** ENABLE leads to ENABLED, which OFFLINE may not move to. */
  lemma EnableFromOfflineRejected()
    ensures ValidateTransition("OFFLINE", "ENABLED") == Some(false)
  {
    assert StateEnumeration()["OFFLINE"] == 0 && StateEnumeration()["ENABLED"] == 3;
    assert (0, 3) !in LegalCells();
  }

  /** Once a transition to `t` was accepted, asking for `t` again is refused. */
  lemma RepeatedTransitionRejected(c: string, t: string)
    requires ValidateTransition(c, t) == Some(true)
    ensures ValidateTransition(t, t) == Some(false)
  {
    NoSelfTransitions();
    EnumerationIsBijection();
  }

  function SuccessMsg(current: string, next: string): string
  {
    "Successful transition from: " + current + " --> " + next
  }

  function InvalidMsg(current: string, next: string): string
  {
    "WARNING: Invalid Transition from: " + current + " --> " + next
  }

  /** The events a `DeviceState` subscribes to unless told otherwise. */
  const DefaultEventList: seq<string> :=
    ["summaryState", "settingVersions", "settingsApplied", "appliedSettingsMatchStart"]

  /** The record has the integer `priority` field that every send reads. */
  predicate HasPriority(r: Record)
  {
    "priority" in r && r["priority"].Number?
  }

  /** Every record a send may read has its integer `priority`. */
  predicate Priorities(myData: map<string, Record>)
  {
    forall e :: e in myData ==> HasPriority(myData[e])
  }

  /** The `priority` a send reads from a record; every record of a valid
      device has one (`Priorities`), so the fallback 0 is never read. */
  function PriorityOf(r: Record): int
  {
    if HasPriority(r) then r["priority"].n else 0
  }

  /** A `priority` keyword argument, when given, is a number, so that the next send can read it. */
  predicate PriorityArg(kwargs: map<string, Value>)
  {
    "priority" in kwargs ==> kwargs["priority"].Number?
  }

  /** The keyword arguments of a send after `setdefault` of `timestamp`
      (the transport clock) and `priority` (1). */
  function WithDefaults(kwargs: map<string, Value>, now: int): map<string, Value>
  {
    var withTime := if "timestamp" in kwargs then kwargs else kwargs["timestamp" := Number(now)];
    if "priority" in withTime then withTime else withTime["priority" := Number(1)]
  }

  /** `setdefault` adds `timestamp` and `priority` when missing, with the clock and 1; given values win. */
  lemma WithDefaultsFields(kwargs: map<string, Value>, now: int)
    ensures var kw := WithDefaults(kwargs, now);
      && kw.Keys == kwargs.Keys + {"timestamp", "priority"}
      && (forall k :: k in kwargs ==> kw[k] == kwargs[k])
      && ("timestamp" !in kwargs ==> kw["timestamp"] == Number(now))
      && ("priority" !in kwargs ==> kw["priority"] == Number(1))
  {
  }

  /** The event-specific fields a send fills before the keyword arguments. */
  function EventDefaults(eventname: string, rec: Record, stateIndex: int, settings: Option<Value>): Record
  {
    var r := if eventname == "summaryState" then rec["summaryState" := Number(stateIndex)] else rec;
    if eventname == "settingsApplied" && settings.Some? then r["settings" := settings.value] else r
  }

  /** `summaryState` gets the current state's number, `settingsApplied` the
      device's `settings` when it has one; nothing else is added or changed. */
  lemma EventDefaultsFields(eventname: string, rec: Record, stateIndex: int, settings: Option<Value>)
    ensures var r := EventDefaults(eventname, rec, stateIndex, settings);
      && r.Keys == rec.Keys + (if eventname == "summaryState" then {"summaryState"} else {})
                            + (if eventname == "settingsApplied" && settings.Some? then {"settings"} else {})
      && (forall k :: (k in rec && !(eventname == "summaryState" && k == "summaryState")
                       && !(eventname == "settingsApplied" && settings.Some? && k == "settings")) ==> r[k] == rec[k])
      && (eventname == "summaryState" ==> r["summaryState"] == Number(stateIndex))
      && (eventname == "settingsApplied" && settings.Some? ==> r["settings"] == settings.value)
  {
  }

  /** The record `send_logEvent(eventname, **kwargs)` stores and publishes,
      from the record `rec` it finds. */
  function SentRecord(rec: Record, eventname: string, kwargs: map<string, Value>, stateIndex: int,
                      settings: Option<Value>, now: int): Record
  {
    Updated(EventDefaults(eventname, rec, stateIndex, settings), WithDefaults(kwargs, now))
  }

  /** One field `k` of a sent record: whether it is there and what it holds. */
  lemma SentRecordField(rec: Record, eventname: string, kwargs: map<string, Value>, stateIndex: int,
                        settings: Option<Value>, now: int, k: string)
    ensures var r := SentRecord(rec, eventname, kwargs, stateIndex, settings, now);
      && (k in r <==> k in rec || (eventname == "summaryState" && k == "summaryState")
                             || (eventname == "settingsApplied" && settings.Some? && k == "settings"))
      && (k in r ==>
            r[k] == (if k in kwargs then kwargs[k]
                     else if k == "timestamp" then Number(now)
                     else if k == "priority" then Number(1)
                     else if eventname == "summaryState" && k == "summaryState" then Number(stateIndex)
                     else if eventname == "settingsApplied" && settings.Some? && k == "settings" then settings.value
                     else rec[k]))
  {
    EventDefaultsFields(eventname, rec, stateIndex, settings);
    WithDefaultsFields(kwargs, now);
  }

  /**
   * A sent record field by field: it has the fields of the old record, plus
   * the event-specific one; a field named by a keyword argument takes it,
   * otherwise `timestamp` takes the clock and `priority` takes 1, otherwise
   * the event-specific value, otherwise the old value.
   */
  lemma SentRecordFields(rec: Record, eventname: string, kwargs: map<string, Value>, stateIndex: int,
                         settings: Option<Value>, now: int)
    ensures var r := SentRecord(rec, eventname, kwargs, stateIndex, settings, now);
      && r.Keys == rec.Keys + (if eventname == "summaryState" then {"summaryState"} else {})
                            + (if eventname == "settingsApplied" && settings.Some? then {"settings"} else {})
      && (forall k :: k in r ==>
            r[k] == (if k in kwargs then kwargs[k]
                     else if k == "timestamp" then Number(now)
                     else if k == "priority" then Number(1)
                     else if eventname == "summaryState" && k == "summaryState" then Number(stateIndex)
                     else if eventname == "settingsApplied" && settings.Some? && k == "settings" then settings.value
                     else rec[k]))
  {
    var defaults := EventDefaults(eventname, rec, stateIndex, settings);
    EventDefaultsFields(eventname, rec, stateIndex, settings);
    var kw := WithDefaults(kwargs, now);
    WithDefaultsFields(kwargs, now);
    var r := SentRecord(rec, eventname, kwargs, stateIndex, settings, now);
    forall k | k in r
      ensures r[k] ==
           if k in kwargs then kwargs[k]
           else if k == "timestamp" then Number(now)
           else if k == "priority" then Number(1)
           else if eventname == "summaryState" && k == "summaryState" then Number(stateIndex)
           else if eventname == "settingsApplied" && settings.Some? && k == "settings" then settings.value
           else rec[k]
    {
      assert k in defaults && r[k] == if k in kw then kw[k] else defaults[k];
    }
  }

  /** One `send_logEvent(eventname, **kwargs)` call. */
  datatype Send = Send(eventname: string, kwargs: map<string, Value>)

  /** What sends leave behind: the records carried forward and the events published, in order. */
  datatype Sends = Sends(data: map<string, Record>, events: seq<Output>)

  /** Every send names a subscribed event. */
  predicate SendsKnown(sends: seq<Send>, myData: map<string, Record>)
  {
    forall i :: 0 <= i < |sends| ==> sends[i].eventname in myData
  }

  /** One send on the records `myData` of a device in the state numbered
      `stateIndex`: the priority is read from the record as it stands, then
      the record is replaced by the sent one and published. */
  function SendOne(myData: map<string, Record>, stateIndex: int, settings: Option<Value>, send: Send, now: int): (r: Sends)
    requires send.eventname in myData
    ensures r.data.Keys == myData.Keys
    ensures |r.events| == 1 && r.events[0].LogEvent? && r.events[0].name == send.eventname
    ensures r.data[send.eventname] == r.events[0].data
  {
    var rec := SentRecord(myData[send.eventname], send.eventname, send.kwargs, stateIndex, settings, now);
    Sends(myData[send.eventname := rec], [LogEvent(send.eventname, rec, PriorityOf(myData[send.eventname]))])
  }

  /** A send leaves every record with a readable priority when it found them so. */
  lemma SendOneKeepsPriorities(myData: map<string, Record>, stateIndex: int, settings: Option<Value>, send: Send, now: int)
    requires send.eventname in myData && Priorities(myData) && PriorityArg(send.kwargs)
    ensures Priorities(SendOne(myData, stateIndex, settings, send, now).data)
  {
    var rec := SentRecord(myData[send.eventname], send.eventname, send.kwargs, stateIndex, settings, now);
    SentRecordFields(myData[send.eventname], send.eventname, send.kwargs, stateIndex, settings, now);
    assert "priority" in myData[send.eventname];
    assert HasPriority(rec);
  }

  /**
   * A send changes one record and publishes one event: the named record
   * becomes the sent record, every other record is kept, and the event
   * carries the sent record with the priority read before the update, the
   * clock as `timestamp` unless one is given, every keyword argument the
   * schema has, and for `summaryState` the state number unless one is given.
   */
  lemma SendOneFacts(myData: map<string, Record>, stateIndex: int, settings: Option<Value>, send: Send, now: int)
    requires send.eventname in myData && Priorities(myData) && PriorityArg(send.kwargs)
    ensures Priorities(SendOne(myData, stateIndex, settings, send, now).data)
    ensures var r := SendOne(myData, stateIndex, settings, send, now);
      var e := send.eventname;
      var rec := SentRecord(myData[e], e, send.kwargs, stateIndex, settings, now);
      && r.data == myData[e := rec]
      && r.events == [LogEvent(e, rec, myData[e]["priority"].n)]
      && ("timestamp" !in send.kwargs ==> FieldIs(r.events[0], "timestamp", Number(now)))
      && (forall k :: k in send.kwargs ==> FieldIs(r.events[0], k, send.kwargs[k]))
      && (e == "summaryState" && "summaryState" !in send.kwargs ==> SummaryStateIs(r.events[0], stateIndex))
      && FieldIs(r.events[0], "priority", if "priority" in send.kwargs then send.kwargs["priority"] else Number(1))
  {
    SentRecordFields(myData[send.eventname], send.eventname, send.kwargs, stateIndex, settings, now);
    SendOneKeepsPriorities(myData, stateIndex, settings, send, now);
  }

  /** Sends made one after another, each on the records the previous left. */
  function SendAll(myData: map<string, Record>, stateIndex: int, settings: Option<Value>, sends: seq<Send>, now: int): (r: Sends)
    requires SendsKnown(sends, myData)
    ensures r.data.Keys == myData.Keys
    ensures |r.events| == |sends| && forall i :: 0 <= i < |r.events| ==> r.events[i].LogEvent?
    decreases |sends|
  {
    if sends == [] then Sends(myData, [])
    else
      var n := |sends| - 1;
      var before := SendAll(myData, stateIndex, settings, sends[..n], now);
      var one := SendOne(before.data, stateIndex, settings, sends[n], now);
      Sends(one.data, before.events + one.events)
  }

  /** One more send after `sends`. */
  lemma SendAllSnoc(myData: map<string, Record>, stateIndex: int, settings: Option<Value>, sends: seq<Send>, send: Send, now: int)
    requires SendsKnown(sends, myData) && send.eventname in myData
    ensures SendsKnown(sends + [send], myData)
    ensures var before := SendAll(myData, stateIndex, settings, sends, now);
      var one := SendOne(before.data, stateIndex, settings, send, now);
      SendAll(myData, stateIndex, settings, sends + [send], now) == Sends(one.data, before.events + one.events)
  {
    assert (sends + [send])[..|sends|] == sends;
    assert forall i :: 0 <= i < |sends| ==> sends[i] == (sends + [send])[i];
  }

  /** Two sends in a row. */
  lemma SendAllOfTwo(myData: map<string, Record>, stateIndex: int, settings: Option<Value>, s1: Send, s2: Send, now: int)
    requires s1.eventname in myData && s2.eventname in myData
    ensures var one := SendOne(myData, stateIndex, settings, s1, now);
      var two := SendOne(one.data, stateIndex, settings, s2, now);
      SendAll(myData, stateIndex, settings, [s1, s2], now) == Sends(two.data, one.events + two.events)
  {
    SendAllSnoc(myData, stateIndex, settings, [], s1, now);
    assert [] + [s1] == [s1];
    SendAllSnoc(myData, stateIndex, settings, [s1], s2, now);
    assert [s1] + [s2] == [s1, s2];
  }

  /** Three sends in a row. */
  lemma SendAllOfThree(myData: map<string, Record>, stateIndex: int, settings: Option<Value>, s1: Send, s2: Send, s3: Send, now: int)
    requires s1.eventname in myData && s2.eventname in myData && s3.eventname in myData
    ensures var one := SendOne(myData, stateIndex, settings, s1, now);
      var two := SendOne(one.data, stateIndex, settings, s2, now);
      var three := SendOne(two.data, stateIndex, settings, s3, now);
      SendAll(myData, stateIndex, settings, [s1, s2, s3], now) == Sends(three.data, one.events + two.events + three.events)
  {
    SendAllOfTwo(myData, stateIndex, settings, s1, s2, now);
    SendAllSnoc(myData, stateIndex, settings, [s1, s2], s3, now);
    assert [s1, s2] + [s3] == [s1, s2, s3];
  }

  /** The events a run of sends is addressed to. */
  function Names(sends: seq<Send>): set<string>
  {
    set i | 0 <= i < |sends| :: sends[i].eventname
  }

  /** Sends leave every record they are not addressed to as it was. */
  lemma {:induction false} SendAllKeepsOthers(myData: map<string, Record>, stateIndex: int, settings: Option<Value>,
                                              sends: seq<Send>, now: int)
    requires SendsKnown(sends, myData)
    ensures forall e :: e in myData && e !in Names(sends) ==>
              SendAll(myData, stateIndex, settings, sends, now).data[e] == myData[e]
    decreases |sends|
  {
    if sends != [] {
      var n := |sends| - 1;
      var prefix, last := sends[..n], sends[n];
      assert sends == prefix + [last];
      SendAllSnoc(myData, stateIndex, settings, prefix, last, now);
      SendAllKeepsOthers(myData, stateIndex, settings, prefix, now);
      forall e | e in myData && e !in Names(sends)
        ensures SendAll(myData, stateIndex, settings, sends, now).data[e] == myData[e]
      {
        assert e != last.eventname;
        assert e !in Names(prefix) by {
          forall i | 0 <= i < n ensures prefix[i].eventname != e {
            assert prefix[i] == sends[i];
          }
        }
      }
    }
  }

  /** No send among `sends` is addressed to the same event as another. */
  predicate DistinctNames(sends: seq<Send>)
  {
    forall i, j :: 0 <= i < j < |sends| ==> sends[i].eventname != sends[j].eventname
  }

  /**
   * Sends to distinct events each work on the record as it was before any of
   * them: the `i`-th event is the one that send alone would publish from the
   * original records.
   */
  lemma {:induction false} SendAllEvents(myData: map<string, Record>, stateIndex: int, settings: Option<Value>,
                                         sends: seq<Send>, now: int)
    requires SendsKnown(sends, myData) && DistinctNames(sends)
    ensures forall i :: 0 <= i < |sends| ==>
              SendAll(myData, stateIndex, settings, sends, now).events[i] ==
              SendOne(myData, stateIndex, settings, sends[i], now).events[0]
    decreases |sends|
  {
    if sends != [] {
      var n := |sends| - 1;
      var prefix, last := sends[..n], sends[n];
      assert sends == prefix + [last];
      assert forall i :: 0 <= i < n ==> prefix[i] == sends[i];
      assert last.eventname !in Names(prefix);
      SendAllKeepsOthers(myData, stateIndex, settings, prefix, now);
      SendAllSnoc(myData, stateIndex, settings, prefix, last, now);
      SendAllEvents(myData, stateIndex, settings, prefix, now);
      var before := SendAll(myData, stateIndex, settings, prefix, now);
      var one := SendOne(before.data, stateIndex, settings, last, now);
      var r := SendAll(myData, stateIndex, settings, sends, now);
      assert before.data[last.eventname] == myData[last.eventname];
      assert one.events[0] == SendOne(myData, stateIndex, settings, last, now).events[0];
      forall i | 0 <= i < |sends|
        ensures r.events[i] == SendOne(myData, stateIndex, settings, sends[i], now).events[0]
      {
        if i < n {
          assert r.events[i] == before.events[i];
        } else {
          assert r.events[i] == one.events[0];
        }
      }
    }
  }

  /** After sends to distinct events, each sent-to record is its event's payload. */
  lemma {:induction false} SendAllRecords(myData: map<string, Record>, stateIndex: int, settings: Option<Value>,
                                          sends: seq<Send>, now: int)
    requires SendsKnown(sends, myData) && DistinctNames(sends)
    ensures var r := SendAll(myData, stateIndex, settings, sends, now);
      forall i :: 0 <= i < |sends| ==> r.data[sends[i].eventname] == r.events[i].data
    decreases |sends|
  {
    if sends != [] {
      var n := |sends| - 1;
      var prefix, last := sends[..n], sends[n];
      assert sends == prefix + [last];
      assert forall i :: 0 <= i < n ==> prefix[i] == sends[i];
      SendAllSnoc(myData, stateIndex, settings, prefix, last, now);
      SendAllRecords(myData, stateIndex, settings, prefix, now);
      var before := SendAll(myData, stateIndex, settings, prefix, now);
      var one := SendOne(before.data, stateIndex, settings, last, now);
      var r := SendAll(myData, stateIndex, settings, sends, now);
      forall i | 0 <= i < |sends| ensures r.data[sends[i].eventname] == r.events[i].data {
        if i < n {
          assert sends[i].eventname != last.eventname;
          assert r.events[i] == before.events[i];
          assert before.data[prefix[i].eventname] == before.events[i].data;
        } else {
          assert r.events[i] == one.events[0];
        }
      }
    }
  }

  /** The sends that follow an accepted transition, by upper-cased command. */
  function FollowUpSends(commandUpper: string): seq<Send>
  {
    if commandUpper == "ENTERCONTROL" then
      [Send("settingVersions", map["recommendedSettingsVersion" := Text("normal")]), Send("summaryState", map[])]
    else if commandUpper == "START" then
      [Send("settingsApplied", map[]),
       Send("appliedSettingsMatchStart", map["appliedSettingsMatchStartIsTrue" := Number(1)]),
       Send("summaryState", map[])]
    else
      [Send("summaryState", map[])]
  }

  /** The events a successful transition publishes after its acknowledgment, in order. */
  function FollowUpEvents(commandUpper: string): seq<string>
  {
    if commandUpper == "ENTERCONTROL" then ["settingVersions", "summaryState"]
    else if commandUpper == "START" then ["settingsApplied", "appliedSettingsMatchStart", "summaryState"]
    else ["summaryState"]
  }

  /** The records hold every event the command's follow-ups send. */
  predicate FollowUpsKnown(commandUpper: string, myData: map<string, Record>)
  {
    forall e :: e in FollowUpEvents(commandUpper) ==> e in myData
  }

  /** The follow-ups of a command send, in order, to the follow-up events,
      which are distinct, and set neither priority nor timestamp. */
  lemma FollowUpSendsShape(commandUpper: string, myData: map<string, Record>)
    ensures var sends := FollowUpSends(commandUpper);
      && |FollowUpEvents(commandUpper)| == |sends|
      && (forall i :: 0 <= i < |sends| ==> FollowUpEvents(commandUpper)[i] == sends[i].eventname)
      && DistinctNames(sends)
      && (forall i :: 0 <= i < |sends| ==> "priority" !in sends[i].kwargs && "timestamp" !in sends[i].kwargs)
      && (FollowUpsKnown(commandUpper, myData) ==> SendsKnown(sends, myData))
  {
    var sends := FollowUpSends(commandUpper);
    var names := FollowUpEvents(commandUpper);
    assert |names| == |sends|;
    forall i | 0 <= i < |sends|
      ensures names[i] == sends[i].eventname
      ensures "priority" !in sends[i].kwargs && "timestamp" !in sends[i].kwargs
    {
      if commandUpper == "ENTERCONTROL" {
        assert i == 0 || i == 1;
      } else if commandUpper == "START" {
        assert i == 0 || i == 1 || i == 2;
      }
    }
    if FollowUpsKnown(commandUpper, myData) {
      forall i | 0 <= i < |sends| ensures sends[i].eventname in myData {
        assert names[i] in names;
      }
    }
  }

  /** The default event list holds every event any command's follow-ups send. */
  lemma DefaultEventListServesEveryCommand(commandUpper: string)
    ensures forall e :: e in FollowUpEvents(commandUpper) ==> e in DefaultEventList
  {
    var names := FollowUpEvents(commandUpper);
    forall e | e in names ensures e in DefaultEventList {
      var i :| 0 <= i < |names| && names[i] == e;
    }
  }

  /** The follow-ups of `commandUpper`, sent one after another by a device in the state numbered `stateIndex`. */
  function FollowUps(myData: map<string, Record>, stateIndex: int, settings: Option<Value>, commandUpper: string, now: int): (r: Sends)
    requires FollowUpsKnown(commandUpper, myData)
    ensures r.data.Keys == myData.Keys
    ensures |r.events| == |FollowUpEvents(commandUpper)| && forall i :: 0 <= i < |r.events| ==> r.events[i].LogEvent?
  {
    FollowUpSendsShape(commandUpper, myData);
    SendAll(myData, stateIndex, settings, FollowUpSends(commandUpper), now)
  }

  /** `events` are one published event per name, in order, each stamped with
      the transport clock reading `now` when its schema has a `timestamp`. */
  ghost predicate PublishedInOrder(events: seq<Output>, names: seq<string>, now: int)
  {
    |events| == |names| && forall i :: 0 <= i < |events| ==> Published(events[i], names[i], now)
  }

  ghost predicate Published(o: Output, name: string, now: int)
  {
    o.LogEvent? && o.name == name && FieldIs(o, "timestamp", Number(now))
  }

  /** A published event whose `field`, when its schema has one, holds `v`. */
  ghost predicate FieldIs(o: Output, field: string, v: Value)
  {
    o.LogEvent? && (field in o.data ==> o.data[field] == v)
  }

  /** A `summaryState` event carrying state number `index`. */
  ghost predicate SummaryStateIs(o: Output, index: int)
  {
    o.LogEvent? && o.name == "summaryState" && "summaryState" in o.data && o.data["summaryState"] == Number(index)
  }

  /**
   * What the follow-ups publish: one event per follow-up name, in order,
   * stamped with the clock, each published with the priority its record had
   * before and carrying priority 1 from then on, its payload the sent record
   * built from the old one.
   */
  lemma FollowUpsPublished(myData: map<string, Record>, stateIndex: int, settings: Option<Value>, commandUpper: string, now: int)
    requires Priorities(myData) && FollowUpsKnown(commandUpper, myData)
    ensures var r := FollowUps(myData, stateIndex, settings, commandUpper, now);
      var names := FollowUpEvents(commandUpper);
      var sends := FollowUpSends(commandUpper);
      && PublishedInOrder(r.events, names, now)
      && (forall i :: 0 <= i < |names| ==>
            && r.events[i].priority == myData[names[i]]["priority"].n
            && r.events[i].data == SentRecord(myData[names[i]], names[i], sends[i].kwargs, stateIndex, settings, now)
            && FieldIs(r.events[i], "priority", Number(1)))
  {
    var names := FollowUpEvents(commandUpper);
    var sends := FollowUpSends(commandUpper);
    FollowUpSendsShape(commandUpper, myData);
    SendAllEvents(myData, stateIndex, settings, sends, now);
    var r := FollowUps(myData, stateIndex, settings, commandUpper, now);
    forall i | 0 <= i < |names|
      ensures Published(r.events[i], names[i], now) && FieldIs(r.events[i], "priority", Number(1))
      ensures r.events[i].priority == myData[names[i]]["priority"].n
    {
      SentRecordFields(myData[names[i]], names[i], sends[i].kwargs, stateIndex, settings, now);
    }
  }

  /** Whatever the command, the last follow-up is `summaryState` with the state number. */
  lemma FollowUpsEndWithState(myData: map<string, Record>, stateIndex: int, settings: Option<Value>, commandUpper: string, now: int)
    requires FollowUpsKnown(commandUpper, myData)
    ensures var r := FollowUps(myData, stateIndex, settings, commandUpper, now);
      SummaryStateIs(r.events[|r.events| - 1], stateIndex)
  {
    var sends := FollowUpSends(commandUpper);
    if commandUpper == "ENTERCONTROL" {
      SendAllOfTwo(myData, stateIndex, settings, sends[0], sends[1], now);
      var one := SendOne(myData, stateIndex, settings, sends[0], now);
      SentRecordField(one.data[sends[1].eventname], sends[1].eventname, sends[1].kwargs, stateIndex, settings, now,
                      "summaryState");
    } else if commandUpper == "START" {
      SendAllOfThree(myData, stateIndex, settings, sends[0], sends[1], sends[2], now);
      var one := SendOne(myData, stateIndex, settings, sends[0], now);
      var two := SendOne(one.data, stateIndex, settings, sends[1], now);
      SentRecordField(two.data[sends[2].eventname], sends[2].eventname, sends[2].kwargs, stateIndex, settings, now,
                      "summaryState");
    } else {
      SendAllSnoc(myData, stateIndex, settings, [], sends[0], now);
      assert [] + [sends[0]] == sends;
      SentRecordField(myData[sends[0].eventname], sends[0].eventname, sends[0].kwargs, stateIndex, settings, now,
                      "summaryState");
    }
  }

  /** ENTERCONTROL recommends the "normal" settings version. */
  lemma EnterControlRecommendsNormal(myData: map<string, Record>, stateIndex: int, settings: Option<Value>, now: int)
    requires FollowUpsKnown("ENTERCONTROL", myData)
    ensures var r := FollowUps(myData, stateIndex, settings, "ENTERCONTROL", now);
      FieldIs(r.events[0], "recommendedSettingsVersion", Text("normal"))
  {
    var sends := FollowUpSends("ENTERCONTROL");
    SendAllOfTwo(myData, stateIndex, settings, sends[0], sends[1], now);
    SentRecordField(myData[sends[0].eventname], sends[0].eventname, sends[0].kwargs, stateIndex, settings, now,
                    "recommendedSettingsVersion");
  }

  /** START reports that the applied settings match. */
  lemma StartReportsSettingsMatch(myData: map<string, Record>, stateIndex: int, settings: Option<Value>, now: int)
    requires FollowUpsKnown("START", myData)
    ensures var r := FollowUps(myData, stateIndex, settings, "START", now);
      FieldIs(r.events[1], "appliedSettingsMatchStartIsTrue", Number(1))
  {
    var sends := FollowUpSends("START");
    SendAllOfThree(myData, stateIndex, settings, sends[0], sends[1], sends[2], now);
    var one := SendOne(myData, stateIndex, settings, sends[0], now);
    SentRecordField(one.data[sends[1].eventname], sends[1].eventname, sends[1].kwargs, stateIndex, settings, now,
                    "appliedSettingsMatchStartIsTrue");
  }

  /** What the follow-ups carry forward: each sent-to record ends as its
      event's payload and every other record is kept. */
  lemma FollowUpsRecords(myData: map<string, Record>, stateIndex: int, settings: Option<Value>, commandUpper: string, now: int)
    requires FollowUpsKnown(commandUpper, myData)
    ensures var r := FollowUps(myData, stateIndex, settings, commandUpper, now);
      var names := FollowUpEvents(commandUpper);
      && (forall i :: 0 <= i < |names| ==> r.data[names[i]] == r.events[i].data)
      && (forall e :: e in myData && e !in names ==> r.data[e] == myData[e])
  {
    var names := FollowUpEvents(commandUpper);
    var sends := FollowUpSends(commandUpper);
    FollowUpSendsShape(commandUpper, myData);
    SendAllRecords(myData, stateIndex, settings, sends, now);
    SendAllKeepsOthers(myData, stateIndex, settings, sends, now);
  }

  /** `reply_to_transition(cmdId)` on values: a legal move is acknowledged
      COMPLETE and followed by the follow-ups sent in the new state; an
      illegal one is acknowledged NOPERM and changes no record. */
  function Reply(current: string, next: string, commandUpper: string, myData: map<string, Record>,
                 settings: Option<Value>, cmdId: int, now: int): (r: Sends)
    requires current in StateEnumeration() && next in StateEnumeration()
    requires FollowUpsKnown(commandUpper, myData)
    ensures r.data.Keys == myData.Keys
  {
    if ValidateTransition(current, next) == Some(true) then
      var f := FollowUps(myData, StateEnumeration()[next], settings, commandUpper, now);
      Sends(f.data, [Ack(cmdId, Complete, 0, SuccessMsg(current, next))] + f.events)
    else
      Sends(myData, [Ack(cmdId, NoPerm, 0, InvalidMsg(current, next))])
  }

  /**
   * A reply in full: a legal move puts the COMPLETE acknowledgment first and
   * then the follow-up events, each stamped and published in order, the last
   * one `summaryState` with the new state's number, and carries forward
   * the records of `FollowUps`; an illegal move publishes only the NOPERM
   * acknowledgment with the warning and keeps every record.
   */
  lemma ReplyReport(current: string, next: string, commandUpper: string, myData: map<string, Record>,
                    settings: Option<Value>, cmdId: int, now: int)
    requires current in StateEnumeration() && next in StateEnumeration()
    requires Priorities(myData) && FollowUpsKnown(commandUpper, myData)
    ensures var r := Reply(current, next, commandUpper, myData, settings, cmdId, now);
      if ValidateTransition(current, next) == Some(true) then
        && |r.events| == 1 + |FollowUpEvents(commandUpper)|
        && r.events[0] == Ack(cmdId, Complete, 0, SuccessMsg(current, next))
        && PublishedInOrder(r.events[1..], FollowUpEvents(commandUpper), now)
        && SummaryStateIs(r.events[|r.events| - 1], StateEnumeration()[next])
        && r.data == FollowUps(myData, StateEnumeration()[next], settings, commandUpper, now).data
      else
        r.data == myData && r.events == [Ack(cmdId, NoPerm, 0, InvalidMsg(current, next))]
  {
    var r := Reply(current, next, commandUpper, myData, settings, cmdId, now);
    if ValidateTransition(current, next) == Some(true) {
      var f := FollowUps(myData, StateEnumeration()[next], settings, commandUpper, now);
      FollowUpsPublished(myData, StateEnumeration()[next], settings, commandUpper, now);
      FollowUpsEndWithState(myData, StateEnumeration()[next], settings, commandUpper, now);
      assert r.events[1..] == f.events;
    }
  }

  /** The state after the controller of a command moving to `next` handles the
      command id `cmdId` in state `current`: ids that are not positive are no
      command, a legal transition moves, an illegal one leaves the state. */
  function Step(current: string, next: string, cmdId: int): string
  {
    if cmdId > 0 && ValidateTransition(current, next) == Some(true) then next else current
  }

  /** The state after a stream of polled command ids. */
  function StateAfter(current: string, next: string, cmdIds: seq<int>): (r: string)
    ensures r == current || r == next
    decreases |cmdIds|
  {
    if cmdIds == [] then current
    else Step(StateAfter(current, next, cmdIds[..|cmdIds| - 1]), next, cmdIds[|cmdIds| - 1])
  }

  /** For each command received in the stream, whether it was accepted. */
  function Decisions(current: string, next: string, cmdIds: seq<int>): seq<bool>
    decreases |cmdIds|
  {
    if cmdIds == [] then []
    else
      var before := cmdIds[..|cmdIds| - 1];
      var cmdId := cmdIds[|cmdIds| - 1];
      Decisions(current, next, before) +
        (if cmdId > 0 then [ValidateTransition(StateAfter(current, next, before), next) == Some(true)] else [])
  }

  /** The received command ids of a stream of polls, in order. */
  function Arrivals(cmdIds: seq<int>): seq<int>
    decreases |cmdIds|
  {
    if cmdIds == [] then []
    else Arrivals(cmdIds[..|cmdIds| - 1]) + (if cmdIds[|cmdIds| - 1] > 0 then [cmdIds[|cmdIds| - 1]] else [])
  }

  /** What `run_command` leaves after a stream of polls: each received id is
      replied to in the state the earlier ones left. */
  function RunLog(current: string, next: string, commandUpper: string, myData: map<string, Record>,
                  settings: Option<Value>, cmdIds: seq<int>, now: int): (r: Sends)
    requires current in StateEnumeration() && next in StateEnumeration()
    requires FollowUpsKnown(commandUpper, myData)
    ensures r.data.Keys == myData.Keys
    decreases |cmdIds|
  {
    if cmdIds == [] then Sends(myData, [])
    else
      var before := cmdIds[..|cmdIds| - 1];
      var cmdId := cmdIds[|cmdIds| - 1];
      var run := RunLog(current, next, commandUpper, myData, settings, before, now);
      if cmdId > 0 then
        var reply := Reply(StateAfter(current, next, before), next, commandUpper, run.data, settings, cmdId, now);
        Sends(reply.data, run.events + reply.events)
      else run
  }

  lemma AppendAssociates(a: seq<Output>, b: seq<Output>, c: seq<Output>)
    ensures a + b + c == a + (b + c)
  {
  }

  /** One more poll after `before`: the state steps, a received id adds its
      decision, and its reply is made in the state and on the records the
      earlier polls left. */
  lemma RunSnoc(current: string, next: string, commandUpper: string, myData: map<string, Record>,
                settings: Option<Value>, before: seq<int>, cmdId: int, now: int)
    requires current in StateEnumeration() && next in StateEnumeration()
    requires FollowUpsKnown(commandUpper, myData)
    ensures var state := StateAfter(current, next, before);
      var run := RunLog(current, next, commandUpper, myData, settings, before, now);
      && StateAfter(current, next, before + [cmdId]) == Step(state, next, cmdId)
      && Arrivals(before + [cmdId]) == Arrivals(before) + (if cmdId > 0 then [cmdId] else [])
      && Decisions(current, next, before + [cmdId]) ==
           Decisions(current, next, before) + (if cmdId > 0 then [ValidateTransition(state, next) == Some(true)] else [])
      && RunLog(current, next, commandUpper, myData, settings, before + [cmdId], now) ==
           if cmdId > 0 then
             var reply := Reply(state, next, commandUpper, run.data, settings, cmdId, now);
             Sends(reply.data, run.events + reply.events)
           else run
  {
    assert (before + [cmdId])[..|before|] == before;
  }

  /** `RunSnoc` for the first `i + 1` polls of a stream, as a loop over the stream meets them. */
  lemma RunPrefix(current: string, next: string, commandUpper: string, myData: map<string, Record>,
                  settings: Option<Value>, cmdIds: seq<int>, i: int, now: int)
    requires current in StateEnumeration() && next in StateEnumeration()
    requires FollowUpsKnown(commandUpper, myData)
    requires 0 <= i < |cmdIds|
    ensures var state := StateAfter(current, next, cmdIds[..i]);
      var run := RunLog(current, next, commandUpper, myData, settings, cmdIds[..i], now);
      var cmdId := cmdIds[i];
      && StateAfter(current, next, cmdIds[..i + 1]) == Step(state, next, cmdId)
      && (AnyReceived(cmdIds[..i + 1]) <==> AnyReceived(cmdIds[..i]) || cmdId > 0)
      && Decisions(current, next, cmdIds[..i + 1]) ==
           Decisions(current, next, cmdIds[..i]) + (if cmdId > 0 then [ValidateTransition(state, next) == Some(true)] else [])
      && RunLog(current, next, commandUpper, myData, settings, cmdIds[..i + 1], now) ==
           if cmdId > 0 then
             var reply := Reply(state, next, commandUpper, run.data, settings, cmdId, now);
             Sends(reply.data, run.events + reply.events)
           else run
  {
    assert cmdIds[..i + 1] == cmdIds[..i] + [cmdIds[i]];
    RunSnoc(current, next, commandUpper, myData, settings, cmdIds[..i], cmdIds[i], now);
    ReceivedExtends(cmdIds[..i], cmdIds[i]);
  }

  /** The acknowledgments of a log, in order. */
  function Acks(log: seq<Output>): seq<Output>
    decreases |log|
  {
    if log == [] then []
    else Acks(log[..|log| - 1]) + (if log[|log| - 1].Ack? then [log[|log| - 1]] else [])
  }

  lemma {:induction false} AcksAppend(a: seq<Output>, b: seq<Output>)
    ensures Acks(a + b) == Acks(a) + Acks(b)
    decreases |b|
  {
    if b == [] {
      assert a + b == a;
    } else {
      var n := |b| - 1;
      assert (a + b)[..|a + b| - 1] == a + b[..n];
      assert (a + b)[|a + b| - 1] == b[n];
      AcksAppend(a, b[..n]);
      assert Acks(b) == Acks(b[..n]) + (if b[n].Ack? then [b[n]] else []);
    }
  }

  lemma {:induction false} AcksOfEvents(log: seq<Output>)
    requires forall i :: 0 <= i < |log| ==> log[i].LogEvent?
    ensures Acks(log) == []
    decreases |log|
  {
    if log != [] {
      AcksOfEvents(log[..|log| - 1]);
    }
  }

  lemma ReceivedExtends(before: seq<int>, cmdId: int)
    ensures AnyReceived(before + [cmdId]) <==> AnyReceived(before) || cmdId > 0
  {
    var cmdIds := before + [cmdId];
    if AnyReceived(cmdIds) && !AnyReceived(before) {
      var i :| 0 <= i < |cmdIds| && cmdIds[i] > 0;
      assert i == |before|;
    }
    if AnyReceived(before) {
      var i :| 0 <= i < |before| && before[i] > 0;
      assert cmdIds[i] > 0;
    }
    if cmdId > 0 {
      assert cmdIds[|before|] > 0;
    }
  }

  /** Some polled id is a received command. */
  predicate AnyReceived(cmdIds: seq<int>)
  {
    exists i :: 0 <= i < |cmdIds| && cmdIds[i] > 0
  }

  /**
   * However many times a command arrives, the device ends in the command's
   * target state exactly when some command arrived and the transition from
   * the starting state was legal, and otherwise stays where it was.
   */
  lemma {:induction false} CommandStreamSettles(current: string, next: string, cmdIds: seq<int>)
    requires current in StateEnumeration() && next in StateEnumeration()
    ensures StateAfter(current, next, cmdIds) ==
              if AnyReceived(cmdIds) && ValidateTransition(current, next) == Some(true) then next else current
    decreases |cmdIds|
  {
    if cmdIds != [] {
      var before := cmdIds[..|cmdIds| - 1];
      CommandStreamSettles(current, next, before);
      assert cmdIds == before + [cmdIds[|cmdIds| - 1]];
      ReceivedExtends(before, cmdIds[|cmdIds| - 1]);
      if AnyReceived(before) && ValidateTransition(current, next) == Some(true) {
        RepeatedTransitionRejected(current, next);
      }
    }
  }

  /**
   * Every arrival gets exactly one decision, and only the first can be
   * accepted: that one is accepted exactly when the transition is legal,
   * every later one is refused.
   */
  lemma {:induction false} OnlyFirstArrivalAccepted(current: string, next: string, cmdIds: seq<int>)
    requires current in StateEnumeration() && next in StateEnumeration()
    ensures |Decisions(current, next, cmdIds)| == |Arrivals(cmdIds)|
    ensures |Decisions(current, next, cmdIds)| > 0 <==> AnyReceived(cmdIds)
    ensures AnyReceived(cmdIds) ==>
              Decisions(current, next, cmdIds)[0] == (ValidateTransition(current, next) == Some(true))
    ensures forall j :: 0 < j < |Decisions(current, next, cmdIds)| ==> !Decisions(current, next, cmdIds)[j]
    decreases |cmdIds|
  {
    if cmdIds != [] {
      var before := cmdIds[..|cmdIds| - 1];
      var cmdId := cmdIds[|cmdIds| - 1];
      OnlyFirstArrivalAccepted(current, next, before);
      assert cmdIds == before + [cmdId];
      ReceivedExtends(before, cmdId);
      if cmdId > 0 {
        CommandStreamSettles(current, next, before);
        if AnyReceived(before) && ValidateTransition(current, next) == Some(true) {
          RepeatedTransitionRejected(current, next);
        }
      }
    }
  }

  /**
   * Over a whole stream the records change at most once: they are those the
   * follow-ups of the first arrival leave when that arrival was accepted,
   * and the original ones otherwise.
   */
  lemma {:induction false} RunLogRecords(current: string, next: string, commandUpper: string, myData: map<string, Record>,
                                         settings: Option<Value>, cmdIds: seq<int>, now: int)
    requires current in StateEnumeration() && next in StateEnumeration()
    requires FollowUpsKnown(commandUpper, myData)
    ensures RunLog(current, next, commandUpper, myData, settings, cmdIds, now).data ==
              if AnyReceived(cmdIds) && ValidateTransition(current, next) == Some(true)
              then FollowUps(myData, StateEnumeration()[next], settings, commandUpper, now).data
              else myData
    decreases |cmdIds|
  {
    if cmdIds != [] {
      var before := cmdIds[..|cmdIds| - 1];
      var cmdId := cmdIds[|cmdIds| - 1];
      assert cmdIds == before + [cmdId];
      RunSnoc(current, next, commandUpper, myData, settings, before, cmdId, now);
      RunLogRecords(current, next, commandUpper, myData, settings, before, now);
      ReceivedExtends(before, cmdId);
      CommandStreamSettles(current, next, before);
      if AnyReceived(before) && ValidateTransition(current, next) == Some(true) {
        RepeatedTransitionRejected(current, next);
      }
    }
  }

  /** A reply publishes exactly one acknowledgment, for its command id:
      COMPLETE for a legal move, NOPERM otherwise. */
  lemma ReplyAcknowledgesOnce(current: string, next: string, commandUpper: string, myData: map<string, Record>,
                              settings: Option<Value>, cmdId: int, now: int)
    requires current in StateEnumeration() && next in StateEnumeration()
    requires FollowUpsKnown(commandUpper, myData)
    ensures var valid := ValidateTransition(current, next) == Some(true);
      Acks(Reply(current, next, commandUpper, myData, settings, cmdId, now).events) ==
        [if valid then Ack(cmdId, Complete, 0, SuccessMsg(current, next)) else Ack(cmdId, NoPerm, 0, InvalidMsg(current, next))]
  {
    if ValidateTransition(current, next) == Some(true) {
      var ack := Ack(cmdId, Complete, 0, SuccessMsg(current, next));
      var f := FollowUps(myData, StateEnumeration()[next], settings, commandUpper, now);
      AcksAppend([ack], f.events);
      AcksOfEvents(f.events);
      assert Acks([ack]) == Acks([]) + [ack];
    } else {
      var ack := Ack(cmdId, NoPerm, 0, InvalidMsg(current, next));
      assert Acks([ack]) == Acks([]) + [ack];
    }
  }

  /**
   * The acknowledgments of a run are one per arrival, in order: the `j`-th
   * answers the `j`-th received id, COMPLETE when its decision accepted the
   * move and NOPERM otherwise.
   */
  lemma {:induction false} RunLogAcknowledgesEachArrival(current: string, next: string, commandUpper: string,
                                                         myData: map<string, Record>, settings: Option<Value>,
                                                         cmdIds: seq<int>, now: int)
    requires current in StateEnumeration() && next in StateEnumeration()
    requires FollowUpsKnown(commandUpper, myData)
    ensures var acks := Acks(RunLog(current, next, commandUpper, myData, settings, cmdIds, now).events);
      && |acks| == |Arrivals(cmdIds)| == |Decisions(current, next, cmdIds)|
      && forall j :: 0 <= j < |acks| ==>
           && acks[j].Ack? && acks[j].cmdId == Arrivals(cmdIds)[j]
           && acks[j].code == (if Decisions(current, next, cmdIds)[j] then Complete else NoPerm)
    decreases |cmdIds|
  {
    if cmdIds != [] {
      var before := cmdIds[..|cmdIds| - 1];
      var cmdId := cmdIds[|cmdIds| - 1];
      assert cmdIds == before + [cmdId];
      RunSnoc(current, next, commandUpper, myData, settings, before, cmdId, now);
      RunLogAcknowledgesEachArrival(current, next, commandUpper, myData, settings, before, now);
      var run := RunLog(current, next, commandUpper, myData, settings, before, now);
      if cmdId > 0 {
        var state := StateAfter(current, next, before);
        var reply := Reply(state, next, commandUpper, run.data, settings, cmdId, now);
        AcksAppend(run.events, reply.events);
        ReplyAcknowledgesOnce(state, next, commandUpper, run.data, settings, cmdId, now);
      }
    }
  }

  /** `DeviceState`: the current lifecycle state and one record per subscribed event. */
  class DeviceState {
    var currentState: string
    /** The last payload sent per event name, carried forward between sends. */
    var myData: map<string, Record>
    /** The `settings` attribute a `settingsApplied` event copies; nothing in the core sets it. */
    var settings: Option<Value>
    /** Where the event publishers of this device send. */
    const channel: Channel

    ghost predicate Valid()
      reads this
    {
      currentState in StateEnumeration() && Priorities(myData)
    }

    /**
     * `DeviceState(default_state, eventlist)`: `schemas` stands for the
     * generated record class of each event, so `myData` starts with one fresh
     * record per subscribed event.
     */
    constructor (defaultState: string, eventlist: seq<string>, schemas: map<string, Record>, channel: Channel)
      requires defaultState in StateEnumeration()
      requires forall e :: e in eventlist ==> e in schemas && HasPriority(schemas[e])
      ensures Valid()
      ensures currentState == defaultState && settings == None && this.channel == channel
      ensures myData == map e | e in eventlist :: schemas[e]
    {
      currentState := defaultState;
      myData := map e | e in eventlist :: schemas[e];
      settings := None;
      this.channel := channel;
    }

    /**
     * `send_logEvent(eventname, **kwargs)`: read the publish priority from the
     * record as it stands, fill the event-specific field, apply the keyword
     * arguments with their defaults to the known fields, store the record and
     * publish it.
     */
    method SendLogEvent(eventname: string, kwargs: map<string, Value>, now: int)
      requires Valid() && eventname in myData && PriorityArg(kwargs)
      modifies this, channel
      ensures Valid()
      ensures currentState == old(currentState) && settings == old(settings)
      ensures myData == SendOne(old(myData), StateEnumeration()[currentState], settings, Send(eventname, kwargs), now).data
      ensures channel.sent == old(channel.sent) + SendOne(old(myData), StateEnumeration()[currentState], settings, Send(eventname, kwargs), now).events
    {
      var kw := WithDefaults(kwargs, now);
      var priority := myData[eventname]["priority"].n;
      var rec := EventDefaults(eventname, myData[eventname], StateEnumeration()[currentState], settings);
      ghost var defaults := rec;
      rec := UpdateMyData(rec, kw);
      UpdatedFromIsUpdated(rec, defaults, kw);
      myData := myData[eventname := rec];
      channel.Publish(LogEvent(eventname, rec, priority));
    }
  }

  /** `DDSController`: the handler of one command for one device. */
  class Controller {
    const command: string
    /** The command upper-cased, as it is looked up and dispatched on. */
    const commandUpper: string
    /** The state this command moves the device to. */
    const nextState: string
    const state: DeviceState
    /** Set once a command has been received and handled. */
    var newControl: bool

    ghost predicate Valid()
      reads this, state
    {
      && nextState in StateEnumeration()
      && state.Valid()
      && FollowUpsKnown(commandUpper, state.myData)
    }

    constructor (command: string, state: DeviceState)
      requires TargetState(command).Some?
      requires state.Valid()
      requires FollowUpsKnown(Upper(command), state.myData)
      ensures Valid()
      ensures this.command == command && commandUpper == Upper(command)
      ensures Some(nextState) == TargetState(command)
      ensures this.state == state && !newControl
    {
      this.command := command;
      commandUpper := Upper(command);
      nextState := TargetState(command).value;
      this.state := state;
      newControl := false;
    }

    /**
     * `reply_to_transition(cmdId)`: a legal transition is acknowledged
     * COMPLETE, then the state changes, then the follow-up events are
     * published; an illegal one is acknowledged NOPERM and nothing else
     * happens.
     */
    method ReplyToTransition(cmdId: int, now: int) returns (accepted: bool)
      requires Valid()
      modifies state, state.channel
      ensures Valid()
      ensures Some(accepted) == ValidateTransition(old(state.currentState), nextState)
      ensures state.currentState == if accepted then nextState else old(state.currentState)
      ensures state.settings == old(state.settings)
      ensures state.myData == Reply(old(state.currentState), nextState, commandUpper, old(state.myData), state.settings, cmdId, now).data
      ensures state.channel.sent ==
                old(state.channel.sent) + Reply(old(state.currentState), nextState, commandUpper, old(state.myData), state.settings, cmdId, now).events
    {
      var valid := ValidateTransition(state.currentState, nextState).value;
      if valid {
        var msg := SuccessMsg(state.currentState, nextState);
        ghost var log := state.channel.sent;
        state.channel.Publish(Ack(cmdId, Complete, 0, msg));
        state.currentState := nextState;
        ghost var acked := state.channel.sent;
        PublishFollowUps(now);
        AppendAssociates(log, [Ack(cmdId, Complete, 0, msg)], state.channel.sent[|acked|..]);
      } else {
        var msg := InvalidMsg(state.currentState, nextState);
        state.channel.Publish(Ack(cmdId, NoPerm, 0, msg));
      }
      accepted := valid;
    }

    /**
     * `run_command()` over a finite stretch of its polling loop: each poll of
     * the command reader yields a command id, and a positive one is handled
     * by `reply_to_transition` and marks the controller as having received a
     * command. The answer is each received command's decision, in order.
     */
    method RunCommand(cmdIds: seq<int>, now: int) returns (decisions: seq<bool>)
      requires Valid()
      modifies this, state, state.channel
      ensures Valid()
      ensures decisions == Decisions(old(state.currentState), nextState, cmdIds)
      ensures state.currentState == StateAfter(old(state.currentState), nextState, cmdIds)
      ensures newControl == (old(newControl) || AnyReceived(cmdIds))
      ensures state.settings == old(state.settings)
      ensures state.myData == RunLog(old(state.currentState), nextState, commandUpper, old(state.myData), state.settings, cmdIds, now).data
      ensures state.channel.sent ==
                old(state.channel.sent) + RunLog(old(state.currentState), nextState, commandUpper, old(state.myData), state.settings, cmdIds, now).events
    {
      ghost var start := state.currentState;
      ghost var records := state.myData;
      ghost var log := state.channel.sent;
      decisions := [];
      var i := 0;
      while i < |cmdIds|
        invariant 0 <= i <= |cmdIds|
        invariant Valid()
        invariant decisions == Decisions(start, nextState, cmdIds[..i])
        invariant state.currentState == StateAfter(start, nextState, cmdIds[..i])
        invariant newControl == (old(newControl) || AnyReceived(cmdIds[..i]))
        invariant state.settings == old(state.settings)
        invariant state.myData == RunLog(start, nextState, commandUpper, records, state.settings, cmdIds[..i], now).data
        invariant state.channel.sent == log + RunLog(start, nextState, commandUpper, records, state.settings, cmdIds[..i], now).events
      {
        var cmdId := cmdIds[i];
        RunPrefix(start, nextState, commandUpper, records, state.settings, cmdIds, i, now);
        ghost var polled := state.channel.sent;
        var decided := HandlePoll(cmdId, now);
        AppendAssociates(log, polled[|log|..], state.channel.sent[|polled|..]);
        decisions := decisions + decided;
        i := i + 1;
      }
      assert cmdIds[..|cmdIds|] == cmdIds;
    }

    /** One pass of the polling loop: a positive command id is replied to and
        noted, any other id leaves everything as it was. */
    method HandlePoll(cmdId: int, now: int) returns (decided: seq<bool>)
      requires Valid()
      modifies this, state, state.channel
      ensures Valid()
      ensures state.currentState == Step(old(state.currentState), nextState, cmdId)
      ensures decided == if cmdId > 0 then [ValidateTransition(old(state.currentState), nextState) == Some(true)] else []
      ensures newControl == (old(newControl) || cmdId > 0)
      ensures state.settings == old(state.settings)
      ensures state.myData ==
                if cmdId > 0 then Reply(old(state.currentState), nextState, commandUpper, old(state.myData), state.settings, cmdId, now).data
                else old(state.myData)
      ensures state.channel.sent == old(state.channel.sent) +
                if cmdId > 0 then Reply(old(state.currentState), nextState, commandUpper, old(state.myData), state.settings, cmdId, now).events
                else []
    {
      decided := [];
      if cmdId > 0 {
        var accepted := ReplyToTransition(cmdId, now);
        decided := [accepted];
        newControl := true;
      }
    }

    /** The events published after an accepted transition, by command. */
    method PublishFollowUps(now: int)
      requires Valid() && state.currentState == nextState
      modifies state, state.channel
      ensures Valid()
      ensures state.currentState == old(state.currentState) && state.settings == old(state.settings)
      ensures state.myData == FollowUps(old(state.myData), StateEnumeration()[nextState], state.settings, commandUpper, now).data
      ensures state.channel.sent ==
                old(state.channel.sent) + FollowUps(old(state.myData), StateEnumeration()[nextState], state.settings, commandUpper, now).events
    {
      if commandUpper == "ENTERCONTROL" {
        PublishEnterControlEvents(now);
      } else if commandUpper == "START" {
        PublishStartEvents(now);
      } else {
        PublishStateEvent(now);
      }
    }

    /** ENTERCONTROL: the recommended settings version, then the state. */
    method PublishEnterControlEvents(now: int)
      requires Valid() && state.currentState == nextState && commandUpper == "ENTERCONTROL"
      modifies state, state.channel
      ensures Valid()
      ensures state.currentState == old(state.currentState) && state.settings == old(state.settings)
      ensures state.myData == FollowUps(old(state.myData), StateEnumeration()[nextState], state.settings, commandUpper, now).data
      ensures state.channel.sent ==
                old(state.channel.sent) + FollowUps(old(state.myData), StateEnumeration()[nextState], state.settings, commandUpper, now).events
    {
      assert FollowUpSends(commandUpper) ==
               [Send("settingVersions", map["recommendedSettingsVersion" := Text("normal")]), Send("summaryState", map[])];
      SendAllOfTwo(state.myData, StateEnumeration()[nextState], state.settings,
                   Send("settingVersions", map["recommendedSettingsVersion" := Text("normal")]), Send("summaryState", map[]), now);
      ghost var log := state.channel.sent;
      state.SendLogEvent("settingVersions", map["recommendedSettingsVersion" := Text("normal")], now);
      ghost var first := state.channel.sent;
      state.SendLogEvent("summaryState", map[], now);
      AppendAssociates(log, first[|log|..], state.channel.sent[|first|..]);
    }

    /** START: the applied settings, the match flag, then the state. */
    method PublishStartEvents(now: int)
      requires Valid() && state.currentState == nextState && commandUpper == "START"
      modifies state, state.channel
      ensures Valid()
      ensures state.currentState == old(state.currentState) && state.settings == old(state.settings)
      ensures state.myData == FollowUps(old(state.myData), StateEnumeration()[nextState], state.settings, commandUpper, now).data
      ensures state.channel.sent ==
                old(state.channel.sent) + FollowUps(old(state.myData), StateEnumeration()[nextState], state.settings, commandUpper, now).events
    {
      assert FollowUpSends(commandUpper) ==
               [Send("settingsApplied", map[]),
                Send("appliedSettingsMatchStart", map["appliedSettingsMatchStartIsTrue" := Number(1)]),
                Send("summaryState", map[])];
      SendAllOfThree(state.myData, StateEnumeration()[nextState], state.settings,
                     Send("settingsApplied", map[]),
                     Send("appliedSettingsMatchStart", map["appliedSettingsMatchStartIsTrue" := Number(1)]),
                     Send("summaryState", map[]), now);
      ghost var log := state.channel.sent;
      state.SendLogEvent("settingsApplied", map[], now);
      ghost var first := state.channel.sent;
      state.SendLogEvent("appliedSettingsMatchStart", map["appliedSettingsMatchStartIsTrue" := Number(1)], now);
      ghost var second := state.channel.sent;
      AppendAssociates(log, first[|log|..], second[|first|..]);
      state.SendLogEvent("summaryState", map[], now);
      AppendAssociates(log, second[|log|..], state.channel.sent[|second|..]);
    }

    /** Any other command: the state alone. */
    method PublishStateEvent(now: int)
      requires Valid() && state.currentState == nextState
      requires commandUpper != "ENTERCONTROL" && commandUpper != "START"
      modifies state, state.channel
      ensures Valid()
      ensures state.currentState == old(state.currentState) && state.settings == old(state.settings)
      ensures state.myData == FollowUps(old(state.myData), StateEnumeration()[nextState], state.settings, commandUpper, now).data
      ensures state.channel.sent ==
                old(state.channel.sent) + FollowUps(old(state.myData), StateEnumeration()[nextState], state.settings, commandUpper, now).events
    {
      assert FollowUpSends(commandUpper) == [Send("summaryState", map[])];
      SendAllSnoc(state.myData, StateEnumeration()[nextState], state.settings, [], Send("summaryState", map[]), now);
      assert [] + [Send("summaryState", map[])] == [Send("summaryState", map[])];
      state.SendLogEvent("summaryState", map[], now);
    }
  }
}
