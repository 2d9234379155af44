/**
 * WandbRun: one tracked run. Construction launches the backend server,
 * opens the RPC channel and retries the initial run-update until the backend
 * answers; `log` sends one history batch per call, tagged with a step;
 * `finish` drains captured output, then sends run-exit, then server-shutdown,
 * then closes the channel and waits for the server process.
 *
 * The backend, the channel and the process are not modelled as such: what
 * the run does to them is recorded as an event trace, and what they answer
 * is passed in as a parameter.
 */
module Run {
  import opened Wrappers
  import opened JavaLang
  import opened Json
  import opened Records
  import opened OutputStream

  /** The backend's run record: what the client requests and what the backend returns. */
  datatype RunRecord = RunRecord(
    runId: string,
    displayName: string,
    entity: string,
    project: string,
    notes: string,
    jobType: string,
    runGroup: string,
    sweepId: string,
    host: string,
    tags: seq<string>,
    config: Option<ConfigRecord>)

  /** A run record with no field set. */
  const EmptyRunRecord := RunRecord("", "", "", "", "", "", "", "", "", [], None)

  const DefaultPort: int32 := 50051
  const DefaultAddress := "localhost"
  /** The pause after a refused run-update attempt. */
  const RetryDelayMillis := 200

  /** What one run-update attempt returned: the backend's run, or an exception. */
  datatype UpdateReply = Updated(run: RunRecord) | Refused

  /** What a mid-session RPC returned: an acknowledgement, or the exception it raised. */
  datatype Reply = Ack | RpcError(status: string)

  /** One thing the run did to its backend, channel, process or output stream. */
  datatype Event =
    | ProcessStarted(command: seq<string>)
    | ChannelOpened(address: string, port: int32)
    | RunUpdateSent(request: RunRecord)
    | Slept(millis: nat)
    | LogSent(record: HistoryRecord)
    | OutputFlushed
    | OutputReset
    | OutputClosed
    | RunExitSent(exitCode: int32)
    | ShutdownSent
    | ChannelShutdown
    | ProcessAwaited

  /** The command line of the backend server process. */
  function ServerCommand(port: int32): seq<string> {
    ["wandb", "grpc-server", "--port", IntToString(port)]
  }

  /** The backend answers some run-update attempt, so the handshake ends. */
  predicate EventuallyAnswers(replies: seq<UpdateReply>) {
    exists i :: 0 <= i < |replies| && replies[i].Updated?
  }

  /** The attempt on which the handshake succeeds: the first answered one. */
  function FirstSuccess(replies: seq<UpdateReply>): (k: nat)
    requires EventuallyAnswers(replies)
    ensures k < |replies| && replies[k].Updated?
    ensures forall j :: 0 <= j < k ==> replies[j].Refused?
  {
    if replies[0].Updated? then 0
    else
      assert EventuallyAnswers(replies[1..]) by {
        var i :| 0 <= i < |replies| && replies[i].Updated?;
        assert replies[1..][i - 1] == replies[i];
      }
      1 + FirstSuccess(replies[1..])
  }

  /** The events of `k` refused attempts: each sends the request, then sleeps. */
  function RetryTrace(request: RunRecord, k: nat): seq<Event> {
    if k == 0 then [] else RetryTrace(request, k - 1) + [RunUpdateSent(request), Slept(RetryDelayMillis)]
  }

  /** The events of a handshake that succeeds on attempt `k` (counting from 0). */
  function HandshakeTrace(request: RunRecord, k: nat): seq<Event> {
    RetryTrace(request, k) + [RunUpdateSent(request)]
  }

  lemma {:induction false} RetryTraceCounts(request: RunRecord, k: nat)
    ensures |RetryTrace(request, k)| == 2 * k
    ensures multiset(RetryTrace(request, k))[Slept(RetryDelayMillis)] == k
    ensures multiset(RetryTrace(request, k))[RunUpdateSent(request)] == k
    ensures forall e :: e in RetryTrace(request, k) ==> e == Slept(RetryDelayMillis) || e == RunUpdateSent(request)
  {
    if k > 0 {
      RetryTraceCounts(request, k - 1);
    }
  }

  /**
   * A handshake that succeeds on attempt `k` sends the request k + 1 times,
   * sleeps exactly once per refused attempt, and ends with the answered request.
   */
  lemma HandshakeCounts(request: RunRecord, k: nat)
    ensures multiset(HandshakeTrace(request, k))[Slept(RetryDelayMillis)] == k
    ensures multiset(HandshakeTrace(request, k))[RunUpdateSent(request)] == k + 1
    ensures |HandshakeTrace(request, k)| == 2 * k + 1
    ensures HandshakeTrace(request, k)[2 * k] == RunUpdateSent(request)
  {
    RetryTraceCounts(request, k);
  }

  /** The `_step` values that `n` successive `log(json)` calls send, starting from `counter`. */
  function AutoSteps(counter: int32, n: nat): seq<int32>
    decreases n
  {
    if n == 0 then [] else [Increment(counter)] + AutoSteps(Increment(counter), n - 1)
  }

  /** The step counter after `n` successive `log(json)` calls, starting from `counter`. */
  function CounterAfter(counter: int32, n: nat): int32
    decreases n
  {
    if n == 0 then counter else CounterAfter(Increment(counter), n - 1)
  }

  /** One more `log(json)` call sends the incremented counter and leaves it there. */
  lemma {:induction false} AutoStepsSnoc(counter: int32, n: nat)
    ensures CounterAfter(counter, n + 1) == Increment(CounterAfter(counter, n))
    ensures AutoSteps(counter, n + 1) == AutoSteps(counter, n) + [CounterAfter(counter, n + 1)]
    decreases n
  {
    if n > 0 {
      AutoStepsSnoc(Increment(counter), n - 1);
    }
  }

  lemma {:induction false} AutoStepsCount(counter: int32, n: nat)
    requires 0 <= counter && counter as int + n <= MaxInt as int
    ensures |AutoSteps(counter, n)| == n
    ensures forall i :: 0 <= i < n ==> AutoSteps(counter, n)[i] as int == counter as int + i + 1
    ensures CounterAfter(counter, n) as int == counter as int + n
    decreases n
  {
    if n > 0 {
      AutoStepsCount(counter + 1, n - 1);
    }
  }

  /**
   * From a freshly constructed run (counter 0), `n` calls of `log(json)` send
   * the steps 1, 2, ..., n in call order and leave the counter at n.
   */
  lemma AutoStepsFromZero(n: nat)
    requires n <= MaxInt as int
    ensures |AutoSteps(0, n)| == n
    ensures forall i :: 0 <= i < n ==> AutoSteps(0, n)[i] as int == i + 1
    ensures CounterAfter(0, n) as int == n
  {
    AutoStepsCount(0, n);
  }

  /** The counter is a Java `int`: the call after MaxInt sends MinInt. */
  lemma AutoStepsWrap()
    ensures AutoSteps(MaxInt, 1) == [MinInt]
  {
  }

  /**
   * The events of `finish(exitCode)`: drain the output (flush, reset, and
   * close unless reset failed), then run-exit, then, unless
   * run-exit raised, server-shutdown, then, unless that raised, channel
   * shutdown and process wait.
   */
  function FinishTrace(exitCode: int32, resetFails: bool, exitReply: Reply, shutdownReply: Reply): seq<Event> {
    [OutputFlushed, OutputReset] + (if resetFails then [] else [OutputClosed])
    + [RunExitSent(exitCode)]
    + (if exitReply.RpcError? then []
       else [ShutdownSent] + (if shutdownReply.RpcError? then [] else [ChannelShutdown, ProcessAwaited]))
  }

  /** `a` occurs in `t`, and strictly before `b` when `b` occurs too. */
  predicate OccursBefore(t: seq<Event>, a: Event, b: Event) {
    exists i :: 0 <= i < |t| && t[i] == a && forall j :: 0 <= j < |t| && t[j] == b ==> i < j
  }

  /**
   * Teardown order and error handling: whatever the output drain does,
   * run-exit is sent, after the drain; server-shutdown is sent exactly when
   * run-exit did not raise, and after it; the channel is shut down and the
   * process awaited exactly when neither RPC raised, in that order.
   */
  lemma FinishOrder(exitCode: int32, resetFails: bool, exitReply: Reply, shutdownReply: Reply)
    ensures var t := FinishTrace(exitCode, resetFails, exitReply, shutdownReply);
            && OccursBefore(t, OutputFlushed, RunExitSent(exitCode))
            && OccursBefore(t, OutputReset, RunExitSent(exitCode))
            && (ShutdownSent in t <==> exitReply.Ack?)
            && (ProcessAwaited in t <==> exitReply.Ack? && shutdownReply.Ack?)
            && (ChannelShutdown in t <==> ProcessAwaited in t)
            && OccursBefore(t, RunExitSent(exitCode), ShutdownSent)
            && (ShutdownSent in t ==> OccursBefore(t, ShutdownSent, ChannelShutdown))
            && (ChannelShutdown in t ==> OccursBefore(t, ChannelShutdown, ProcessAwaited))
  {
    var t := FinishTrace(exitCode, resetFails, exitReply, shutdownReply);
    var x := if resetFails then 2 else 3;
    assert t[0] == OutputFlushed && t[1] == OutputReset && t[x] == RunExitSent(exitCode);
    if exitReply.Ack? {
      assert t[x + 1] == ShutdownSent;
      if shutdownReply.Ack? {
        assert t[x + 2] == ChannelShutdown && t[x + 3] == ProcessAwaited;
      }
    }
  }

  class WandbRun {
    /** What the run has done to its backend, channel, process and output, in order. */
    var trace: seq<Event>
    /** The run record the backend returned from the handshake. */
    var run: RunRecord
    var stepCounter: int32
    var output: WandbOutputStream
    /** The `_step` of every log batch sent, in order. */
    ghost var sentSteps: seq<int32>

    ghost predicate Valid()
      reads this, output, output.original
    {
      output.Valid()
    }

    /**
     * `new WandbRun(builder)`: start the server on the builder's port, open
     * the channel to its address, then send the run-update request until an
     * attempt is answered, sleeping after each refused one (there is no
     * bound on attempts: the loop ends only when the backend answers); then
     * zero the step counter and create the output stream over the console.
     */
    constructor (builder: Builder, systemOut: PrintStream, replies: seq<UpdateReply>)
      requires EventuallyAnswers(replies)
      ensures Valid()
      ensures trace == [ProcessStarted(ServerCommand(builder.port)), ChannelOpened(builder.address, builder.port)]
                       + HandshakeTrace(builder.runBuilder, FirstSuccess(replies))
      ensures run == replies[FirstSuccess(replies)].run
      ensures stepCounter == 0 && sentSteps == []
      ensures fresh(output) && output.original == systemOut && output.buffer == "" && output.ops == []
    {
      var request := builder.runBuilder;
      var started := [ProcessStarted(ServerCommand(builder.port)), ChannelOpened(builder.address, builder.port)];
      var events := started;
      var current: Option<RunRecord> := None;
      var attempt := 0;
      ghost var k := FirstSuccess(replies);
      while current.None?
        invariant attempt <= k + 1
        invariant current.None? ==> attempt <= k && events == started + RetryTrace(request, attempt)
        invariant current.Some? ==> current.value == replies[k].run && events == started + HandshakeTrace(request, k)
        decreases k + 1 - attempt
      {
        events := events + [RunUpdateSent(request)];
        var reply := replies[attempt];
        if reply.Updated? {
          current := Some(reply.run);
        } else {
          events := events + [Slept(RetryDelayMillis)];
        }
        attempt := attempt + 1;
      }
      trace := events;
      run := current.value;
      stepCounter := 0;
      sentSteps := [];
      output := new WandbOutputStream(systemOut);
    }

    /** `data()`: the run record returned by the backend. */
    function Data(): RunRecord
      reads this
    {
      run
    }

    /**
     * `log(json, step)`: put `_step` = step into the caller's object, then
     * send the object's history batch; the RPC's exception, if any, reaches
     * the caller. The step counter is not touched.
     */
    method LogAt(json: JsonObject, step: int32, reply: Reply) returns (r: Reply)
      requires json.Valid()
      modifies this, json
      ensures json.Valid() && json.entries == PutEntry(old(json.entries), "_step", JInt(step))
      ensures trace == old(trace) + [LogSent(HistoryRecord(LogItems(json.entries)))]
      ensures sentSteps == old(sentSteps) + [step]
      ensures stepCounter == old(stepCounter) && run == old(run) && output == old(output)
      ensures r == reply
    {
      json.Put("_step", JInt(step));
      var record := MakeLogData(json);
      trace := trace + [LogSent(record)];
      sentSteps := sentSteps + [step];
      r := reply;
    }

    /** `log(json)`: increment the step counter first, then `log(json, counter)`. */
    method Log(json: JsonObject, reply: Reply) returns (r: Reply)
      requires json.Valid()
      modifies this, json
      ensures stepCounter == Increment(old(stepCounter))
      ensures json.Valid() && json.entries == PutEntry(old(json.entries), "_step", JInt(stepCounter))
      ensures trace == old(trace) + [LogSent(HistoryRecord(LogItems(json.entries)))]
      ensures sentSteps == old(sentSteps) + [stepCounter]
      ensures run == old(run) && output == old(output)
      ensures r == reply
    {
      stepCounter := Increment(stepCounter);
      r := LogAt(json, stepCounter, reply);
    }

    /** `exit(exitCode)`: send run-exit; its exception, if any, reaches the caller. */
    method Exit(exitCode: int32, reply: Reply) returns (r: Reply)
      modifies this
      ensures trace == old(trace) + [RunExitSent(exitCode)]
      ensures run == old(run) && stepCounter == old(stepCounter) && output == old(output)
      ensures sentSteps == old(sentSteps)
      ensures r == reply
    {
      trace := trace + [RunExitSent(exitCode)];
      r := reply;
    }

    /**
     * `shutdown()`: send server-shutdown; if it raised, stop there. Otherwise
     * shut the channel down and wait for the process (an interrupted wait is
     * swallowed), and return the shutdown acknowledgement.
     */
    method Shutdown(reply: Reply) returns (r: Reply)
      modifies this
      ensures trace == old(trace) + [ShutdownSent] + (if reply.RpcError? then [] else [ChannelShutdown, ProcessAwaited])
      ensures run == old(run) && stepCounter == old(stepCounter) && output == old(output)
      ensures sentSteps == old(sentSteps)
      ensures r == reply
    {
      trace := trace + [ShutdownSent];
      if reply.RpcError? {
        return reply;
      }
      trace := trace + [ChannelShutdown];
      trace := trace + [ProcessAwaited];
      r := reply;
    }

    /**
     * `finish(exitCode)`: flush the captured output, reset and close it (a
     * failure there is swallowed), then `exit(exitCode)`, then `shutdown()`.
     * An exception from either RPC reaches the caller and ends the teardown.
     */
    method Finish(exitCode: int32, resetFails: bool, exitReply: Reply, shutdownReply: Reply) returns (outcome: Reply)
      requires Valid()
      modifies this, output, output.original
      ensures Valid() && output == old(output) && output.original == old(output.original)
      ensures trace == old(trace) + FinishTrace(exitCode, resetFails, exitReply, shutdownReply)
      ensures outcome == if exitReply.RpcError? then exitReply else shutdownReply
      ensures output.buffer == "" && output.ops == old(output.ops) + [FlushCall]
      ensures output.original.text == old(output.original.text) + old(output.buffer) + FinalMarker + LineSeparator
      ensures run == old(run) && stepCounter == old(stepCounter) && sentSteps == old(sentSteps)
    {
      output.Flush();
      outcome := Teardown(exitCode, resetFails, exitReply, shutdownReply);
    }

    /** What `finish(exitCode)` sends and records once the buffer is printed: the drain events, exit, shutdown. */
    method Teardown(exitCode: int32, resetFails: bool, exitReply: Reply, shutdownReply: Reply) returns (outcome: Reply)
      modifies this
      ensures trace == old(trace) + FinishTrace(exitCode, resetFails, exitReply, shutdownReply)
      ensures outcome == if exitReply.RpcError? then exitReply else shutdownReply
      ensures run == old(run) && stepCounter == old(stepCounter) && sentSteps == old(sentSteps) && output == old(output)
    {
      var drained := [OutputFlushed, OutputReset] + (if resetFails then [] else [OutputClosed]);
      trace := trace + drained;
      outcome := Exit(exitCode, exitReply);
      assert trace == old(trace) + (drained + [RunExitSent(exitCode)]);
      if outcome.RpcError? {
        return;
      }
      outcome := Shutdown(shutdownReply);
    }

    /** `finish()`: the same as `finish(0)`. */
    method FinishDefault(resetFails: bool, exitReply: Reply, shutdownReply: Reply) returns (outcome: Reply)
      requires Valid()
      modifies this, output, output.original
      ensures Valid() && output == old(output) && output.original == old(output.original)
      ensures trace == old(trace) + FinishTrace(0, resetFails, exitReply, shutdownReply)
      ensures outcome == if exitReply.RpcError? then exitReply else shutdownReply
      ensures output.buffer == "" && output.ops == old(output.ops) + [FlushCall]
      ensures output.original.text == old(output.original.text) + old(output.buffer) + FinalMarker + LineSeparator
      ensures run == old(run) && stepCounter == old(stepCounter) && sentSteps == old(sentSteps)
    {
      outcome := Finish(0, resetFails, exitReply, shutdownReply);
    }
  }

  /**
   * A caller's `n` successive `log(json)` calls on a freshly constructed run
   * (counter 0, nothing logged): they send the steps AutoSteps(0, n), that
   * is 1, 2, ..., n (AutoStepsFromZero), and leave the counter at n.
   */
  method LogRepeatedly(r: WandbRun, json: JsonObject, n: nat, reply: Reply)
    requires json.Valid() && r.stepCounter == 0 && r.sentSteps == []
    modifies r, json
    ensures json.Valid()
    ensures r.sentSteps == AutoSteps(0, n) && r.stepCounter == CounterAfter(0, n)
    ensures r.run == old(r.run) && r.output == old(r.output)
  {
    var i := 0;
    while i < n
      invariant 0 <= i <= n
      invariant json.Valid()
      invariant r.sentSteps == AutoSteps(0, i) && r.stepCounter == CounterAfter(0, i)
      invariant r.run == old(r.run) && r.output == old(r.output)
    {
      AutoStepsSnoc(0, i);
      var ack := r.Log(json, reply);
      i := i + 1;
    }
  }

  /** Three `log(json)` calls on a fresh run send the steps 1, 2 and 3. */
  method LogThreeTimes(r: WandbRun, json: JsonObject, reply: Reply)
    requires json.Valid() && r.stepCounter == 0 && r.sentSteps == []
    modifies r, json
    ensures r.sentSteps == [1, 2, 3] && r.stepCounter == 3
  {
    var ack := r.Log(json, reply);
    assert r.stepCounter == 1 && r.sentSteps == [1];
    ack := r.Log(json, reply);
    assert r.stepCounter == 2 && r.sentSteps == [1, 2];
    ack := r.Log(json, reply);
  }

  /** `finish(7)` with every step succeeding: drain, exit 7, shutdown, channel, wait, in that order. */
  method FinishSeven(r: WandbRun) returns (outcome: Reply)
    requires r.Valid()
    modifies r, r.output, r.output.original
    ensures outcome == Ack
    ensures r.trace == old(r.trace) + [OutputFlushed, OutputReset, OutputClosed, RunExitSent(7),
                                       ShutdownSent, ChannelShutdown, ProcessAwaited]
  {
    outcome := r.Finish(7, false, Ack, Ack);
  }

  /** WandbRun.Builder: the run record to request and where to reach the server. */
  class Builder {
    var runBuilder: RunRecord
    var port: int32
    var address: string

    /** Port 50051, address "localhost", and no run field set. */
    constructor ()
      ensures runBuilder == EmptyRunRecord && port == DefaultPort && address == DefaultAddress
    {
      runBuilder := EmptyRunRecord;
      port := DefaultPort;
      address := DefaultAddress;
    }

    method WithName(name: string) returns (self: Builder)
      modifies this
      ensures self == this && runBuilder == old(runBuilder).(displayName := name)
      ensures port == old(port) && address == old(address)
    {
      runBuilder := runBuilder.(displayName := name);
      self := this;
    }

    /** Replaces the initial config with the config batch of `config`. */
    method WithConfig(config: JsonObject) returns (self: Builder)
      modifies this
      ensures self == this && runBuilder == old(runBuilder).(config := Some(ConfigRecord(ConfigItems(config.entries))))
      ensures port == old(port) && address == old(address)
    {
      var record := MakeConfigData(config);
      runBuilder := runBuilder.(config := Some(record));
      self := this;
    }

    method WithProject(name: string) returns (self: Builder)
      modifies this
      ensures self == this && runBuilder == old(runBuilder).(project := name)
      ensures port == old(port) && address == old(address)
    {
      runBuilder := runBuilder.(project := name);
      self := this;
    }

    method WithNotes(notes: string) returns (self: Builder)
      modifies this
      ensures self == this && runBuilder == old(runBuilder).(notes := notes)
      ensures port == old(port) && address == old(address)
    {
      runBuilder := runBuilder.(notes := notes);
      self := this;
    }

    method SetJobType(jobType: string) returns (self: Builder)
      modifies this
      ensures self == this && runBuilder == old(runBuilder).(jobType := jobType)
      ensures port == old(port) && address == old(address)
    {
      runBuilder := runBuilder.(jobType := jobType);
      self := this;
    }

    method WithRunGroup(runGroup: string) returns (self: Builder)
      modifies this
      ensures self == this && runBuilder == old(runBuilder).(runGroup := runGroup)
      ensures port == old(port) && address == old(address)
    {
      runBuilder := runBuilder.(runGroup := runGroup);
      self := this;
    }

    method SetSweepId(sweepId: string) returns (self: Builder)
      modifies this
      ensures self == this && runBuilder == old(runBuilder).(sweepId := sweepId)
      ensures port == old(port) && address == old(address)
    {
      runBuilder := runBuilder.(sweepId := sweepId);
      self := this;
    }

    /** Adds `tags` after the tags already set. */
    method SetTags(tags: seq<string>) returns (self: Builder)
      modifies this
      ensures self == this && runBuilder == old(runBuilder).(tags := old(runBuilder.tags) + tags)
      ensures port == old(port) && address == old(address)
    {
      runBuilder := runBuilder.(tags := runBuilder.tags + tags);
      self := this;
    }

    method ClearTags() returns (self: Builder)
      modifies this
      ensures self == this && runBuilder == old(runBuilder).(tags := [])
      ensures port == old(port) && address == old(address)
    {
      runBuilder := runBuilder.(tags := []);
      self := this;
    }

    method SetHost(host: string) returns (self: Builder)
      modifies this
      ensures self == this && runBuilder == old(runBuilder).(host := host)
      ensures port == old(port) && address == old(address)
    {
      runBuilder := runBuilder.(host := host);
      self := this;
    }

    method OnAddress(address: string) returns (self: Builder)
      modifies this
      ensures self == this && this.address == address
      ensures runBuilder == old(runBuilder) && port == old(port)
    {
      this.address := address;
      self := this;
    }

    method OnPort(port: int32) returns (self: Builder)
      modifies this
      ensures self == this && this.port == port
      ensures runBuilder == old(runBuilder) && address == old(address)
    {
      this.port := port;
      self := this;
    }

    /** `build()`: a run constructed from this builder. */
    method Build(systemOut: PrintStream, replies: seq<UpdateReply>) returns (r: WandbRun)
      requires EventuallyAnswers(replies)
      ensures fresh(r) && r.Valid()
      ensures r.trace == [ProcessStarted(ServerCommand(port)), ChannelOpened(address, port)]
                         + HandshakeTrace(runBuilder, FirstSuccess(replies))
      ensures r.run == replies[FirstSuccess(replies)].run
      ensures r.stepCounter == 0 && r.sentSteps == []
      ensures fresh(r.output) && r.output.original == systemOut && r.output.buffer == ""
    {
      r := new WandbRun(this, systemOut, replies);
    }
  }
}
