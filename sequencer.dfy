/**
 * `command_sequencer` (python/salpytools/salpylib.py:670-704): prepare one
 * record per command, then issue the commands one after another, waiting
 * for each to complete before the next, and report the ones whose wait
 * ended without an acknowledgment.
 *
 * Issuing a command appends it to the channel log; the reply of each wait
 * is given.
 */
module Sequencer {
  import opened Records
  import opened Transport

  /** The commands that carry the "normal" settings, by exact spelling. */
  predicate IsStart(cmd: string)
  {
    cmd == "start" || cmd == "Start"
  }

  /** The record issued for `cmd`: its fresh schema record, with
      `settingsToApply` set to "normal" for a start command. */
  function CommandPayload(cmd: string, schemas: map<string, Record>): Record
    requires cmd in schemas
  {
    if IsStart(cmd) then schemas[cmd]["settingsToApply" := Text("normal")] else schemas[cmd]
  }

  /** The issued commands, in the order given. */
  function Issues(commands: seq<string>, schemas: map<string, Record>): seq<Output>
    requires forall c :: c in commands ==> c in schemas
    decreases |commands|
  {
    if commands == [] then []
    else
      var last := commands[|commands| - 1];
      Issues(commands[..|commands| - 1], schemas) + [Issue(last, CommandPayload(last, schemas))]
  }

  /** The commands whose wait for completion answered NOACK, in order. */
  function TimedOut(commands: seq<string>, replies: seq<AckCode>): seq<string>
    requires |replies| == |commands|
    decreases |commands|
  {
    if commands == [] then []
    else
      var n := |commands| - 1;
      TimedOut(commands[..n], replies[..n]) + (if replies[n] == NoAck then [commands[n]] else [])
  }

  /**
   * One issue per command, in the order of the list: the `i`-th issued
   * command is `commands[i]` with its record, and only a start command's
   * record differs from the schema, in its `settingsToApply`.
   */
  lemma {:induction false} IssuedInOrder(commands: seq<string>, schemas: map<string, Record>)
    requires forall c :: c in commands ==> c in schemas
    ensures |Issues(commands, schemas)| == |commands|
    ensures forall i :: 0 <= i < |commands| ==>
              && Issues(commands, schemas)[i].Issue?
              && Issues(commands, schemas)[i].command == commands[i]
              && Issues(commands, schemas)[i].payload == CommandPayload(commands[i], schemas)
    decreases |commands|
  {
    if commands != [] {
      IssuedInOrder(commands[..|commands| - 1], schemas);
    }
  }

  /** A start command is issued with "normal" settings; any other with its schema record unchanged. */
  lemma StartPayload(cmd: string, schemas: map<string, Record>)
    requires cmd in schemas
    ensures IsStart(cmd) ==>
              "settingsToApply" in CommandPayload(cmd, schemas) &&
              CommandPayload(cmd, schemas)["settingsToApply"] == Text("normal")
    ensures !IsStart(cmd) ==> CommandPayload(cmd, schemas) == schemas[cmd]
    ensures CommandPayload(cmd, schemas).Keys == schemas[cmd].Keys + (if IsStart(cmd) then {"settingsToApply"} else {})
  {
  }

  /** The report names exactly the commands whose wait answered NOACK, and
      has at most one entry per command issued. */
  lemma {:induction false} TimedOutAreTheNoAcks(commands: seq<string>, replies: seq<AckCode>)
    requires |replies| == |commands|
    ensures |TimedOut(commands, replies)| <= |commands|
    ensures forall c :: c in TimedOut(commands, replies) <==>
              exists i :: 0 <= i < |commands| && commands[i] == c && replies[i] == NoAck
    decreases |commands|
  {
    if commands != [] {
      var n := |commands| - 1;
      TimedOutAreTheNoAcks(commands[..n], replies[..n]);
      forall c ensures c in TimedOut(commands, replies) <==>
                         exists i :: 0 <= i < |commands| && commands[i] == c && replies[i] == NoAck
      {
        if c in TimedOut(commands[..n], replies[..n]) {
          var i :| 0 <= i < n && commands[..n][i] == c && replies[..n][i] == NoAck;
          assert commands[i] == c && replies[i] == NoAck;
        }
        if exists i :: 0 <= i < |commands| && commands[i] == c && replies[i] == NoAck {
          var i :| 0 <= i < |commands| && commands[i] == c && replies[i] == NoAck;
          if i < n {
            assert commands[..n][i] == c && replies[..n][i] == NoAck;
          }
        }
      }
    }
  }

  /** When every wait completes nothing is reported; when every wait times
      out every command is reported, in order. */
  lemma {:induction false} TimedOutExtremes(commands: seq<string>, replies: seq<AckCode>)
    requires |replies| == |commands|
    ensures (forall i :: 0 <= i < |replies| ==> replies[i] != NoAck) ==> TimedOut(commands, replies) == []
    ensures (forall i :: 0 <= i < |replies| ==> replies[i] == NoAck) ==> TimedOut(commands, replies) == commands
    decreases |commands|
  {
    if commands != [] {
      var n := |commands| - 1;
      TimedOutExtremes(commands[..n], replies[..n]);
      assert commands[..n] + [commands[n]] == commands;
    }
  }

  /**
   * `command_sequencer(commands)`: the records are prepared first, one per
   * command name, then each command is issued with its record and waited
   * for; `replies[i]` is what the wait for the `i`-th command answered.
   */
  method CommandSequencer(commands: seq<string>, schemas: map<string, Record>, replies: seq<AckCode>, channel: Channel)
    returns (timedOut: seq<string>)
    requires forall c :: c in commands ==> c in schemas
    requires |replies| == |commands|
    modifies channel
    ensures channel.sent == old(channel.sent) + Issues(commands, schemas)
    ensures timedOut == TimedOut(commands, replies)
  {
    var myData: map<string, Record> := map[];
    var i := 0;
    while i < |commands|
      invariant 0 <= i <= |commands|
      invariant myData.Keys == set c | c in commands[..i]
      invariant forall c :: c in myData ==> c in schemas && myData[c] == CommandPayload(c, schemas)
    {
      var cmd := commands[i];
      var rec := schemas[cmd];
      if IsStart(cmd) {
        rec := rec["settingsToApply" := Text("normal")];
      }
      myData := myData[cmd := rec];
      assert commands[..i + 1] == commands[..i] + [cmd];
      i := i + 1;
    }
    assert commands[..|commands|] == commands;
    timedOut := [];
    i := 0;
    while i < |commands|
      invariant 0 <= i <= |commands|
      invariant channel.sent == old(channel.sent) + Issues(commands[..i], schemas)
      invariant timedOut == TimedOut(commands[..i], replies[..i])
    {
      var cmd := commands[i];
      channel.Publish(Issue(cmd, myData[cmd]));
      if replies[i] == NoAck {
        timedOut := timedOut + [cmd];
      }
      assert commands[..i + 1][..i] == commands[..i];
      assert replies[..i + 1][..i] == replies[..i];
      i := i + 1;
    }
    assert commands[..|commands|] == commands;
    assert replies[..|replies|] == replies;
  }
}
