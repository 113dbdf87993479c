/**
 * The polling subscriber of python/salpytools/salpylib.py (`DDSSubcriber`):
 * its run loops keep a bounded history of received samples and raise a
 * new-data flag, `getCurrent` hands out the latest one, and `waitEvent`
 * waits for an event that is not older than a given time stamp.
 *
 * The transport read (`getNextSample_*`, `getEvent_*`, `acceptCommand_*`)
 * becomes a `Poll` the caller supplies; the wall clock becomes ticks, one
 * per pass of the waiting loop.
 */
module Subscriber {
  import opened Wrappers
  import opened Records

  /** The `Stype` of a subscriber. */
  datatype Kind = Telemetry | Event | Command

  /** One transport read: its return value and the sample it filled in. */
  datatype Poll = Poll(retval: int, sample: Record)

  /** A telemetry or event read succeeds with 0; a command read returns a positive command id. */
  predicate Received(kind: Kind, p: Poll)
  {
    if kind == Command then p.retval > 0 else p.retval == 0
  }

  /**
   * Python's `s[-nkeep:]`, for every integer `nkeep`: a positive count keeps
   * the last `nkeep` entries, `-0` is 0 and keeps everything, and a negative
   * count drops the first `-nkeep` entries.
   */
  function KeepLast<T>(s: seq<T>, nkeep: int): seq<T>
  {
    if nkeep > 0 then (if |s| <= nkeep then s else s[|s| - nkeep..])
    else if nkeep == 0 then s
    else if -nkeep <= |s| then s[-nkeep..]
    else []
  }

  /** For a positive count the result is the suffix of length `min(|s|, nkeep)`. */
  lemma KeepLastIsSuffix<T>(s: seq<T>, nkeep: int)
    requires nkeep >= 1
    ensures |KeepLast(s, nkeep)| == if |s| <= nkeep then |s| else nkeep
    ensures KeepLast(s, nkeep) == s[|s| - |KeepLast(s, nkeep)|..]
  {
  }

  /** Truncating before appending changes nothing once the result is truncated again. */
  lemma KeepLastAppend<T>(s: seq<T>, x: T, nkeep: int)
    requires nkeep >= 1
    ensures KeepLast(KeepLast(s, nkeep) + [x], nkeep) == KeepLast(s + [x], nkeep)
  {
    var k := KeepLast(s, nkeep);
    if |s| > nkeep {
      assert k + [x] == (s + [x])[|s| - nkeep..];
      assert KeepLast(k + [x], nkeep) == (s + [x])[|s| + 1 - nkeep..];
    }
  }

  /** With `nkeep` 0 nothing is ever dropped: `s[-0:]` is the whole list. */
  lemma ZeroKeepsEverything<T>(s: seq<T>, x: T)
    ensures KeepLast(s + [x], 0) == s + [x]
    ensures |KeepLast(s + [x], 0)| == |s| + 1
  {
  }

  /** The `timeStamp` attribute of a record, when it has a numeric one. */
  function TimeStampOf(r: Record): Option<int>
  {
    if "timeStamp" in r && r["timeStamp"].Number? then Some(r["timeStamp"].n) else None
  }

  /** The mutable attributes of a subscriber. `timeStamp` is `None` while the attribute does not exist. */
  datatype Snapshot = Snapshot(
    myData: Record,
    myDatalist: seq<Record>,
    newTelem: bool,
    newEvent: bool,
    newCommand: bool,
    timeoutEvent: bool,
    timeStamp: Option<int>,
    cmdId: int)

  /**
   * One pass of `run_Telem`, `run_Event` or `run_Command`. The read fills in
   * `myData`; a received sample is appended to the history, which is cut to
   * the last `nkeep`, and raises the kind's flag. An event also records its
   * `timeStamp`; a command read always stores its id.
   */
  function Polled(kind: Kind, nkeep: int, s: Snapshot, p: Poll): Snapshot
  {
    var s := if kind == Command then s.(cmdId := p.retval) else s;
    if !Received(kind, p) then s
    else
      var s := s.(myData := p.sample, myDatalist := KeepLast(s.myDatalist + [p.sample], nkeep));
      match kind
      case Telemetry => s.(newTelem := true)
      case Event =>
        var s := s.(newEvent := true);
        if TimeStampOf(p.sample).Some? then s.(timeStamp := TimeStampOf(p.sample)) else s
      case Command => s.(newCommand := true)
  }

  /** A run over a finite stretch of reads. */
  function PolledAll(kind: Kind, nkeep: int, s: Snapshot, polls: seq<Poll>): Snapshot
    decreases |polls|
  {
    if polls == [] then s
    else Polled(kind, nkeep, PolledAll(kind, nkeep, s, polls[..|polls| - 1]), polls[|polls| - 1])
  }

  /** The samples of the received reads, in order. */
  function Samples(kind: Kind, polls: seq<Poll>): seq<Record>
    decreases |polls|
  {
    if polls == [] then []
    else
      var last := polls[|polls| - 1];
      Samples(kind, polls[..|polls| - 1]) + (if Received(kind, last) then [last.sample] else [])
  }

  /** Appending and then keeping the last `nkeep >= 1` leaves a non-empty
      history of at most `nkeep` entries that ends in the new one. */
  lemma KeepLastEndsWith<T>(s: seq<T>, x: T, nkeep: int)
    requires nkeep >= 1
    ensures 0 < |KeepLast(s + [x], nkeep)| <= nkeep
    ensures KeepLast(s + [x], nkeep)[|KeepLast(s + [x], nkeep)| - 1] == x
  {
  }

  /**
   * One read with `nkeep >= 1` that receives a sample: the history holds at
   * most `nkeep` entries and ends in the sample, equal to the last `nkeep` of
   * the old history plus the sample, and the flag of the subscriber's kind is
   * raised.
   */
  lemma PollStepReceived(kind: Kind, nkeep: int, s: Snapshot, p: Poll)
    requires nkeep >= 1 && Received(kind, p)
    ensures var t := Polled(kind, nkeep, s, p);
      && 0 < |t.myDatalist| <= nkeep
      && t.myDatalist[|t.myDatalist| - 1] == p.sample
      && t.myDatalist == KeepLast(s.myDatalist + [p.sample], nkeep)
      && t.myData == p.sample
      && (kind == Telemetry ==> t.newTelem)
      && (kind == Event ==> t.newEvent)
      && (kind == Command ==> t.newCommand)
      && t.timeoutEvent == s.timeoutEvent
  {
    var t := Polled(kind, nkeep, s, p);
    assert t.myDatalist == KeepLast(s.myDatalist + [p.sample], nkeep);
    KeepLastEndsWith(s.myDatalist, p.sample, nkeep);
  }

  /** A read that receives nothing changes neither the history nor the flags;
      only a command read stores its return value as the id. */
  lemma PollStepMissed(kind: Kind, nkeep: int, s: Snapshot, p: Poll)
    requires !Received(kind, p)
    ensures Polled(kind, nkeep, s, p) == if kind == Command then s.(cmdId := p.retval) else s
  {
  }

  /** The history after one more read, in terms of the history before it. */
  lemma HistoryStep(kind: Kind, nkeep: int, s: Snapshot, polls: seq<Poll>)
    requires polls != []
    ensures var before := PolledAll(kind, nkeep, s, polls[..|polls| - 1]).myDatalist;
      var p := polls[|polls| - 1];
      PolledAll(kind, nkeep, s, polls).myDatalist ==
        if Received(kind, p) then KeepLast(before + [p.sample], nkeep) else before
  {
  }

  /**
   * Over a whole run with `nkeep >= 1`, the history is the last `nkeep` of
   * the old history followed by every received sample, and is left alone
   * when nothing was received.
   */
  lemma {:induction false} RunKeepsLastSamples(kind: Kind, nkeep: int, s: Snapshot, polls: seq<Poll>)
    requires nkeep >= 1
    ensures PolledAll(kind, nkeep, s, polls).myDatalist ==
              if Samples(kind, polls) == [] then s.myDatalist
              else KeepLast(s.myDatalist + Samples(kind, polls), nkeep)
    decreases |polls|
  {
    if polls != [] {
      var before := polls[..|polls| - 1];
      var p := polls[|polls| - 1];
      RunKeepsLastSamples(kind, nkeep, s, before);
      HistoryStep(kind, nkeep, s, polls);
      var earlier := Samples(kind, before);
      var history := PolledAll(kind, nkeep, s, polls).myDatalist;
      var previous := PolledAll(kind, nkeep, s, before).myDatalist;
      if Received(kind, p) {
        var all := Samples(kind, polls);
        assert all == earlier + [p.sample];
        assert all != [];
        assert history == KeepLast(previous + [p.sample], nkeep);
        if earlier == [] {
          assert previous == s.myDatalist;
          assert s.myDatalist + all == previous + [p.sample];
        } else {
          assert previous == KeepLast(s.myDatalist + earlier, nkeep);
          KeepLastAppend(s.myDatalist + earlier, p.sample, nkeep);
          assert s.myDatalist + earlier + [p.sample] == s.myDatalist + all;
        }
        assert history == KeepLast(s.myDatalist + all, nkeep);
      } else {
        assert Samples(kind, polls) == earlier;
        assert history == previous;
      }
    }
  }

  /** What the history shows in the source, where every entry is the same
      `myData` object the transport keeps filling in: the latest sample,
      once per entry. */
  function AliasedHistory(s: Snapshot): seq<Record>
  {
    seq(|s.myDatalist|, _ => s.myData)
  }

  /** Two different telemetry samples in a row: the aliased history shows
      the second one twice, where the history of values keeps both. */
  lemma AliasedHistoryRepeatsLatest(a: Record, b: Record, s: Snapshot)
    requires a != b && s.myDatalist == []
    ensures var t := PolledAll(Telemetry, 100, s, [Poll(0, a), Poll(0, b)]);
      && t.myDatalist == [a, b]
      && AliasedHistory(t) == [b, b]
      && AliasedHistory(t) != t.myDatalist
  {
    var polls := [Poll(0, a), Poll(0, b)];
    var first := [Poll(0, a)];
    assert polls[..|polls| - 1] == first;
    assert first[..|first| - 1] == [];
    assert PolledAll(Telemetry, 100, s, []) == s;
    var t1 := PolledAll(Telemetry, 100, s, first);
    assert t1 == Polled(Telemetry, 100, s, Poll(0, a));
    assert t1.myDatalist == [a];
    var t := PolledAll(Telemetry, 100, s, polls);
    assert t == Polled(Telemetry, 100, t1, Poll(0, b));
    assert t.myDatalist == [a] + [b];
    assert AliasedHistory(t)[0] == b;
  }

  /**
   * `check_rogueEvent(after_timeStamp)`: a negative `after` switches the
   * check off; without a recorded time stamp there is nothing to check;
   * otherwise an event is rogue when it is strictly older than `after`.
   */
  function RogueEvent(timeStamp: Option<int>, after: int): (rogue: bool)
    ensures rogue <==> after >= 0 && timeStamp.Some? && timeStamp.value < after
    ensures timeStamp == Some(after) ==> !rogue
  {
    if after < 0 then false
    else match timeStamp
      case None => false
      case Some(t) => t - after < 0
  }

  /** Every event the reads deliver is stamped strictly before `after`. */
  predicate StaleEvents(polls: seq<Poll>, after: int)
  {
    forall i :: 0 <= i < |polls| && Received(Event, polls[i]) ==>
      TimeStampOf(polls[i].sample).Some? && TimeStampOf(polls[i].sample).value < after
  }

  /** The first read delivers an event stamped no earlier than `after` (or `after` is negative). */
  predicate FreshFirst(polls: seq<Poll>, after: int)
  {
    && |polls| > 0
    && Received(Event, polls[0])
    && (after < 0 || (TimeStampOf(polls[0].sample).Some? && TimeStampOf(polls[0].sample).value >= after))
  }

  /** How a wait ended: with a new event or not, and the subscriber's state then. */
  datatype Waited = Waited(got: bool, state: Snapshot)

  /**
   * The waiting loop of `waitEvent`, from a pass at tick `t` that sees the
   * state `s`, with `polls` the reads the event loop still makes, one per
   * tick. A pending event that is not rogue ends the wait with `true`; a
   * rogue one is dropped without a look at the clock; a pass with no
   * pending event at or past `limit` ends the wait with `timeoutEvent`
   * raised; otherwise the flag is lowered, one tick goes by and the next
   * read, if any, is made.
   */
  function Wait(kind: Kind, nkeep: int, limit: int, after: int, s: Snapshot, polls: seq<Poll>, t: nat): (r: Waited)
    ensures r.got == r.state.newEvent
    ensures r.got ==> !RogueEvent(r.state.timeStamp, after)
    ensures !r.got ==> r.state.timeoutEvent
    ensures r.got && !s.timeoutEvent ==> !r.state.timeoutEvent
    decreases |polls|, if s.newEvent then 1 else 0, if t < limit then limit - t else 0
  {
    if s.newEvent && !RogueEvent(s.timeStamp, after) then Waited(true, s)
    else if !s.newEvent && t >= limit then Waited(false, s.(newEvent := false, timeoutEvent := true))
    else
      var s1 := if s.newEvent then s.(newEvent := false) else s.(timeoutEvent := false);
      if polls == [] then Wait(kind, nkeep, limit, after, s1, [], t + 1)
      else Wait(kind, nkeep, limit, after, Polled(kind, nkeep, s1, polls[0]), polls[1..], t + 1)
  }

  /** The time stamp recorded once the read `p` is made. */
  function NextStamp(stamp: Option<int>, p: Poll): Option<int>
  {
    if Received(Event, p) && TimeStampOf(p.sample).Some? then TimeStampOf(p.sample) else stamp
  }

  /** The time stamp recorded once the first `k` reads are made, starting from `stamp`. */
  function StampAfter(stamp: Option<int>, polls: seq<Poll>, k: nat): Option<int>
    requires k <= |polls|
    decreases k
  {
    if k == 0 then stamp else StampAfter(NextStamp(stamp, polls[0]), polls[1..], k - 1)
  }

  /** The `j`-th read delivers an event that is not rogue once its stamp is recorded. */
  predicate FreshRead(stamp: Option<int>, after: int, polls: seq<Poll>, j: int)
  {
    && 0 <= j < |polls|
    && Received(Event, polls[j])
    && !RogueEvent(StampAfter(stamp, polls, j + 1), after)
  }

  /** Every pass before the `j`-th read is looked at that finds no pending
      event, the pass at tick `t + m + 1` after an empty `m`-th read, is
      still within `limit`. */
  predicate InTimeUpTo(polls: seq<Poll>, limit: int, t: int, j: int)
  {
    forall m :: 0 <= m < j && m < |polls| && !Received(Event, polls[m]) ==> t + m + 1 < limit
  }

  /** After a read the stamp is the read's own when it delivers a stamped event. */
  lemma {:induction false} StampAfterStamped(stamp: Option<int>, polls: seq<Poll>, j: nat)
    requires j < |polls| && Received(Event, polls[j]) && TimeStampOf(polls[j].sample).Some?
    ensures StampAfter(stamp, polls, j + 1) == TimeStampOf(polls[j].sample)
    decreases j
  {
    if j > 0 {
      StampAfterStamped(NextStamp(stamp, polls[0]), polls[1..], j - 1);
    }
  }

  /** Both predicates after one read, in terms of the remaining reads. */
  lemma ShiftOneRead(stamp: Option<int>, after: int, polls: seq<Poll>, limit: int, t: int, j: nat)
    requires polls != []
    ensures FreshRead(stamp, after, polls, j + 1) == FreshRead(NextStamp(stamp, polls[0]), after, polls[1..], j)
    ensures InTimeUpTo(polls, limit, t, j + 1) ==
              ((!Received(Event, polls[0]) ==> t + 1 < limit) && InTimeUpTo(polls[1..], limit, t + 1, j))
  {
    var rest := polls[1..];
    assert forall m :: 0 <= m < |rest| ==> rest[m] == polls[m + 1];
    if InTimeUpTo(polls, limit, t, j + 1) {
      forall m | 0 <= m < j && m < |rest| && !Received(Event, rest[m])
        ensures t + 1 + m + 1 < limit
      {
        assert polls[m + 1] == rest[m];
      }
    }
    if (!Received(Event, polls[0]) ==> t + 1 < limit) && InTimeUpTo(rest, limit, t + 1, j) {
      forall m | 0 <= m < j + 1 && m < |polls| && !Received(Event, polls[m])
        ensures t + m + 1 < limit
      {
        if m > 0 {
          assert rest[m - 1] == polls[m];
        }
      }
    }
  }

  /** One read made by the event loop: the flag rises when it delivers, and the stamp moves on. */
  lemma PolledEvent(nkeep: int, s: Snapshot, p: Poll)
    ensures Polled(Event, nkeep, s, p).newEvent == (s.newEvent || Received(Event, p))
    ensures Polled(Event, nkeep, s, p).timeStamp == NextStamp(s.timeStamp, p)
  {
  }

  /**
   * For an event subscriber: the wait ends with `true` exactly when an event
   * is pending that is not rogue, or when some read delivers an event that
   * is not rogue and no pass before it times out: the first pass only when
   * nothing is pending, the later ones only after a read that delivered
   * nothing. A rogue event never ends the wait, and the pass that drops it
   * does not look at the clock.
   */
  lemma {:induction false} WaitSucceedsIff(nkeep: int, limit: int, after: int, s: Snapshot, polls: seq<Poll>, t: nat)
    ensures Wait(Event, nkeep, limit, after, s, polls, t).got <==>
              || (s.newEvent && !RogueEvent(s.timeStamp, after))
              || ((s.newEvent || t < limit) &&
                  exists j :: FreshRead(s.timeStamp, after, polls, j) && InTimeUpTo(polls, limit, t, j))
    decreases |polls|, if s.newEvent then 1 else 0, if t < limit then limit - t else 0
  {
    var r := Wait(Event, nkeep, limit, after, s, polls, t);
    if s.newEvent && !RogueEvent(s.timeStamp, after) {
    } else if !s.newEvent && t >= limit {
    } else {
      var s1 := if s.newEvent then s.(newEvent := false) else s.(timeoutEvent := false);
      if polls == [] {
        WaitSucceedsIff(nkeep, limit, after, s1, [], t + 1);
      } else {
        var s2 := Polled(Event, nkeep, s1, polls[0]);
        var rest := polls[1..];
        PolledEvent(nkeep, s1, polls[0]);
        WaitSucceedsIff(nkeep, limit, after, s2, rest, t + 1);
        assert r == Wait(Event, nkeep, limit, after, s2, rest, t + 1);
        if r.got {
          if s2.newEvent && !RogueEvent(s2.timeStamp, after) {
            assert FreshRead(s.timeStamp, after, polls, 0);
            assert InTimeUpTo(polls, limit, t, 0);
          } else {
            var j :| FreshRead(s2.timeStamp, after, rest, j) && InTimeUpTo(rest, limit, t + 1, j);
            ShiftOneRead(s.timeStamp, after, polls, limit, t, j);
            assert FreshRead(s.timeStamp, after, polls, j + 1) && InTimeUpTo(polls, limit, t, j + 1);
          }
        } else {
          forall j | FreshRead(s.timeStamp, after, polls, j)
            ensures !InTimeUpTo(polls, limit, t, j)
          {
            if j > 0 {
              ShiftOneRead(s.timeStamp, after, polls, limit, t, j - 1);
              assert !FreshRead(s2.timeStamp, after, rest, j - 1) || !InTimeUpTo(rest, limit, t + 1, j - 1) ||
                     !(s2.newEvent || t + 1 < limit);
            }
          }
        }
      }
    }
  }

  /** An event that is stamped too early keeps the wait going, and a fresh
      one on the next read ends it with `true`, even with a limit of one tick;
      the stale event alone lets the wait time out. */
  lemma StaleThenFreshArrives(nkeep: int, limit: int, after: int, s: Snapshot, stale: Poll, late: Poll)
    requires !s.newEvent && limit >= 1 && after >= 0
    requires Received(Event, stale) && TimeStampOf(stale.sample).Some? && TimeStampOf(stale.sample).value < after
    requires Received(Event, late) && TimeStampOf(late.sample).Some? && TimeStampOf(late.sample).value >= after
    ensures Wait(Event, nkeep, limit, after, s, [stale, late], 0).got
    ensures !Wait(Event, nkeep, limit, after, s, [stale], 0).got
  {
    var polls := [stale, late];
    StampAfterStamped(s.timeStamp, polls, 1);
    assert FreshRead(s.timeStamp, after, polls, 1);
    assert InTimeUpTo(polls, limit, 0, 1);
    WaitSucceedsIff(nkeep, limit, after, s, polls, 0);
    StampAfterStamped(s.timeStamp, [stale], 0);
    assert !FreshRead(s.timeStamp, after, [stale], 0);
    WaitSucceedsIff(nkeep, limit, after, s, [stale], 0);
  }

  /** When every event the reads deliver is stamped too early, nothing
      pending ends the wait either, so it times out. */
  lemma StaleEventsTimeOut(nkeep: int, limit: int, after: int, s: Snapshot, polls: seq<Poll>)
    requires !s.newEvent && after >= 0 && StaleEvents(polls, after)
    ensures !Wait(Event, nkeep, limit, after, s, polls, 0).got
    ensures Wait(Event, nkeep, limit, after, s, polls, 0).state.timeoutEvent
  {
    forall j | 0 <= j < |polls| && Received(Event, polls[j])
      ensures !FreshRead(s.timeStamp, after, polls, j)
    {
      StampAfterStamped(s.timeStamp, polls, j);
    }
    WaitSucceedsIff(nkeep, limit, after, s, polls, 0);
  }

  /** A first read that delivers an event that is not rogue ends the wait
      with `true`, once the limit allows the first pass. */
  lemma FreshFirstArrives(nkeep: int, limit: int, after: int, s: Snapshot, polls: seq<Poll>)
    requires !s.newEvent && limit >= 1 && FreshFirst(polls, after)
    ensures Wait(Event, nkeep, limit, after, s, polls, 0).got
  {
    if after >= 0 {
      StampAfterStamped(s.timeStamp, polls, 0);
    }
    assert FreshRead(s.timeStamp, after, polls, 0);
    assert InTimeUpTo(polls, limit, 0, 0);
    WaitSucceedsIff(nkeep, limit, after, s, polls, 0);
  }

  /** A telemetry or command subscriber never raises the event flag, so a
      wait on it that starts with nothing pending always times out. */
  lemma {:induction false} NonEventTimesOut(kind: Kind, nkeep: int, limit: int, after: int, s: Snapshot, polls: seq<Poll>, t: nat)
    requires kind != Event && !s.newEvent
    ensures !Wait(kind, nkeep, limit, after, s, polls, t).got
    decreases |polls|, if t < limit then limit - t else 0
  {
    if t < limit {
      var s1 := s.(timeoutEvent := false);
      if polls == [] {
        NonEventTimesOut(kind, nkeep, limit, after, s1, [], t + 1);
      } else {
        NonEventTimesOut(kind, nkeep, limit, after, Polled(kind, nkeep, s1, polls[0]), polls[1..], t + 1);
      }
    }
  }

  /** `DDSSubcriber`, from the end of its `run` preamble on. */
  class Subscriber {
    const kind: Kind
    const nkeep: int
    /** The default timeout of `waitEvent`, in ticks. */
    const timeout: int
    var myData: Record
    var myDatalist: seq<Record>
    var newTelem: bool
    var newEvent: bool
    var newCommand: bool
    var timeoutEvent: bool
    var timeStamp: Option<int>
    var cmdId: int

    function State(): Snapshot
      reads this
    {
      Snapshot(myData, myDatalist, newTelem, newEvent, newCommand, timeoutEvent, timeStamp, cmdId)
    }

    /** `subscribe` allocates an empty record of the topic; `run` starts with
        an empty history and the flags lowered. */
    constructor (kind: Kind, nkeep: int, timeout: int, empty: Record)
      ensures this.kind == kind && this.nkeep == nkeep && this.timeout == timeout
      ensures State() == Snapshot(empty, [], false, false, false, false, None, 0)
    {
      this.kind, this.nkeep, this.timeout := kind, nkeep, timeout;
      myData, myDatalist := empty, [];
      newTelem, newEvent, newCommand, timeoutEvent := false, false, false, false;
      timeStamp, cmdId := None, 0;
    }

    /** One pass of the run loop of this subscriber's kind. */
    method PollStep(p: Poll)
      modifies this
      ensures State() == Polled(kind, nkeep, old(State()), p)
    {
      if kind == Command {
        cmdId := p.retval;
      }
      if Received(kind, p) {
        myData := p.sample;
        myDatalist := myDatalist + [myData];
        myDatalist := KeepLast(myDatalist, nkeep);
        match kind {
          case Telemetry => newTelem := true;
          case Event =>
            newEvent := true;
            if "timeStamp" in myData && myData["timeStamp"].Number? {
              timeStamp := Some(myData["timeStamp"].n);
            }
          case Command => newCommand := true;
        }
      }
    }

    /** The run loop over a finite stretch of reads. */
    method Run(polls: seq<Poll>)
      modifies this
      ensures State() == PolledAll(kind, nkeep, old(State()), polls)
    {
      var i := 0;
      while i < |polls|
        invariant 0 <= i <= |polls|
        invariant State() == PolledAll(kind, nkeep, old(State()), polls[..i])
      {
        assert polls[..i + 1][..i] == polls[..i];
        PollStep(polls[i]);
        i := i + 1;
      }
      assert polls[..|polls|] == polls;
    }

    /**
     * `getCurrent(getNone)`: the latest sample when there is one, which also
     * lowers the telemetry and event flags (the command flag stays); with no
     * history, nothing (`getNone`) or the bare record, and no change.
     */
    method GetCurrent(getNone: bool) returns (current: Option<Record>)
      modifies this
      ensures old(myDatalist) != [] ==>
                && current == Some(old(myDatalist)[|old(myDatalist)| - 1])
                && State() == old(State()).(newTelem := false, newEvent := false)
      ensures old(myDatalist) == [] ==>
                && current == (if getNone then None else Some(myData))
                && State() == old(State())
    {
      if |myDatalist| > 0 {
        current := Some(myDatalist[|myDatalist| - 1]);
        newTelem := false;
        newEvent := false;
      } else if getNone {
        current := None;
      } else {
        current := Some(myData);
      }
    }

    /** `check_rogueEvent(after_timeStamp)` on the recorded time stamp. */
    function CheckRogueEvent(after: int): (rogue: bool)
      reads this
      ensures rogue <==> after >= 0 && timeStamp.Some? && timeStamp.value < after
    {
      RogueEvent(timeStamp, after)
    }

    /** `resetEvent()`: lower the event flag and nothing else. */
    method ResetEvent()
      modifies this
      ensures State() == old(State()).(newEvent := false)
    {
      newEvent := false;
    }

    /** `waitEvent`'s timeout: a missing or zero argument means the subscriber's own. */
    function EffectiveTimeout(timeoutArg: Option<int>): int
      reads this
    {
      if timeoutArg.None? || timeoutArg.value == 0 then timeout else timeoutArg.value
    }

    /**
     * `waitEvent(timeout=..., after_timeStamp=after)`: the loop of `Wait`,
     * from the first pass at tick 0 with `timeoutEvent` lowered. Between two
     * passes one tick goes by, during which the event loop makes its next
     * read from `polls`, if any is left; the pass after `t` ticks sees a
     * little more than `t` ticks elapsed, so it is past a limit of `limit`
     * ticks exactly when `t >= limit`.
     */
    method WaitEvent(timeoutArg: Option<int>, after: int, polls: seq<Poll>) returns (got: bool)
      modifies this
      ensures Waited(got, State()) ==
                Wait(kind, nkeep, EffectiveTimeout(timeoutArg), after, old(State()).(timeoutEvent := false), polls, 0)
      ensures got == newEvent
      ensures got ==> !timeoutEvent && !CheckRogueEvent(after)
      ensures !got ==> timeoutEvent
      ensures old(newEvent) && !old(CheckRogueEvent(after)) ==> got && State() == old(State()).(timeoutEvent := false)
      ensures !old(newEvent) && EffectiveTimeout(timeoutArg) <= 0 ==> !got && State() == old(State()).(timeoutEvent := true)
      ensures kind != Event && !old(newEvent) ==> !got
      ensures kind == Event && !old(newEvent) && after >= 0 && StaleEvents(polls, after) ==> !got && timeoutEvent
      ensures kind == Event && !old(newEvent) && EffectiveTimeout(timeoutArg) >= 1 && FreshFirst(polls, after) ==> got
    {
      var limit := EffectiveTimeout(timeoutArg);
      timeoutEvent := false;
      ghost var start := State();
      ghost var outcome := Wait(kind, nkeep, limit, after, start, polls, 0);
      var t := 0;
      var i := 0;
      while true
        invariant 0 <= i <= |polls|
        invariant Wait(kind, nkeep, limit, after, State(), polls[i..], t) == outcome
        decreases |polls| - i, if newEvent then 1 else 0, if t < limit then limit - t else 0
      {
        if newEvent {
          if CheckRogueEvent(after) {
            newEvent := false;
          } else {
            break;
          }
        } else if t >= limit {
          newEvent := false;
          timeoutEvent := true;
          break;
        } else {
          timeoutEvent := false;
        }
        if i < |polls| {
          assert polls[i..][1..] == polls[i + 1..];
          PollStep(polls[i]);
          i := i + 1;
        }
        t := t + 1;
      }
      got := newEvent;
      if kind != Event && !start.newEvent {
        NonEventTimesOut(kind, nkeep, limit, after, start, polls, 0);
      }
      if kind == Event && !start.newEvent && after >= 0 && StaleEvents(polls, after) {
        StaleEventsTimeOut(nkeep, limit, after, start, polls);
      }
      if kind == Event && !start.newEvent && limit >= 1 && FreshFirst(polls, after) {
        FreshFirstArrives(nkeep, limit, after, start, polls);
      }
    }
  }
}
