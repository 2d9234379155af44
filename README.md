# wandb client-java: verified model of the run session core

This project models, in Dafny, the core of the Java client for the Weights & Biases
experiment tracker (`com.wandb.client`):

- **WandbOutputStream** (`output_stream.dfy`, module `OutputStream`): the stream that captures
  standard output. Writes accumulate in a buffer. When the buffer grows past 250 characters, the
  stream prints it to the saved original stream. It then prints the line
  `Flushing output [AUTOMATICALLY]` and empties the buffer. `flush` always prints the buffer
  followed by `Flushing output [FINAL]`. The class is tied by its invariant `Valid()` to a
  pure state machine (`Step`, `Replay`) over the calls made so far. The bound on the buffer, the
  conservation of written text and the shape of the flushed chunks are proved about that machine.
- **WandbRun** (`wandb_run.dfy` and `records.dfy`, modules `Run` and `Records`):
  - the scalar encoder and the two record builders, `makeLogData` and `makeConfigData`;
  - the step counter and the two `log` overloads;
  - the handshake retry loop in the constructor;
  - the teardown order of `finish` / `exit` / `shutdown`;
  - the `Builder` with its defaults and tag handling.

  The backend, the RPC channel and the server process are not modelled. What the run does to
  them is recorded in an event trace (`WandbRun.trace`). What they answer is a parameter: a
  sequence of run-update replies for the handshake, and one `Reply` per mid-session RPC.
- **JSONItem** (`json_item.dfy`, module `JsonItems`): the second flattening of a JSON object.
  It is kept as written. The value is plain `toString()`, so strings are not quoted. The
  constructor never assigns `key`, so `GetKey()` is `None` (Java `null`) for every item.
- Support modules. `java_lang.dfy` (`JavaLang`) holds Java's 32-bit `int`, the wrap-around of
  `++` and `Integer.toString`. `json.dfy` (`Json`) holds org.json's `JSONObject` reduced to a
  list of entries in key-iteration order, with `put`. `wrappers.dfy` holds `Option`.

Notes on the code as written:

- Output capture is installed only once the handshake loop has succeeded (`WandbRun.java:48-50`).
- Between two refused handshake attempts the constructor sleeps a fixed 200 ms (`WandbRun.java:43`).
- `channel.shutdown()` is not inside a `try` (`WandbRun.java:192`). Only the
  `InterruptedException` of the process wait is swallowed (`WandbRun.java:195`).
- The value encoder rejects no type: anything that is not a string is written with `toString()`
  (`WandbRun.java:99`, `WandbRun.java:117`).
- `WandbRun.java:49` calls `new WandbOutputStream(this)`, but the only constructor takes no
  argument. It is modelled as that constructor, with the console that is `System.out` at that
  moment passed explicitly.
- `WandbRun.java:172` calls `output.resetOut()`, which the stream class does not define. It is
  modelled as an opaque step that may fail (`resetFails`). Its failure is swallowed, and it skips
  the `close()` after it.

## Model

| member | source | states |
|---|---|---|
| `JavaLang.Increment` | src/main/java/com/wandb/client/WandbRun.java:145 | `++` on the `int` step counter is the successor reduced two's-complement into the 32-bit range (MaxInt wraps to MinInt) |
| `JavaLang.IntToStringRoundTrip` | src/main/java/com/wandb/client/WandbRun.java:96-99 | the decimal `toString()` of an `int` reads back as that `int`, so distinct steps are sent as distinct texts |
| `Json.PutEntry` | src/main/java/com/wandb/client/WandbRun.java:149 | `put` keeps the key order of the object; a new key is added after the others |
| `Json.PutLookupSame` | src/main/java/com/wandb/client/WandbRun.java:149 | after `put(k, v)`, `k` maps to `v`, whether it was present or not |
| `Json.PutLookupOther` | src/main/java/com/wandb/client/WandbRun.java:149 | after `put(k, v)`, every key other than `k` keeps its value |
| `Json.PutKeepsKeysUnique` | src/main/java/com/wandb/client/WandbRun.java:149 | `put` inserts or overwrites, never duplicates a key |
| `Json.LookupAt` | src/main/java/com/wandb/client/WandbRun.java:95-96 | `json.get(key)` on an iterated key returns that entry's value |
| `Json.JsonObject.Put` | src/main/java/com/wandb/client/WandbRun.java:149 | `json.put` mutates the object in place as `PutEntry` says and keeps its keys distinct |
| `OutputStream.WandbOutputStream.constructor` | src/main/java/com/wandb/client/WandbOutputStream.java:14-17 | a new stream has an empty buffer, no calls and no flushes, and its `original` is the stream that was `System.out` |
| `OutputStream.WandbOutputStream.WriteUnit` | src/main/java/com/wandb/client/WandbOutputStream.java:19-23 | `write(b)` has exactly the effect of writing `[b]` from offset 0 with length 1 |
| `OutputStream.WandbOutputStream.Write` | src/main/java/com/wandb/client/WandbOutputStream.java:25-34 | a range outside the array changes nothing (the exception case); a buffer of at most 250 after appending only appends (exactly 250 does not flush); past 250 the whole buffer, then the automatic marker line, go to `original` and the buffer empties; the invariant (buffer of at most 250, `original` = initial text + rendered flushes) is kept |
| `OutputStream.WandbOutputStream.Flush` | src/main/java/com/wandb/client/WandbOutputStream.java:36-40 | whatever its length, the buffer then the final marker line are printed to `original` and the buffer is empty |
| `OutputStream.BufferBounded` | src/main/java/com/wandb/client/WandbOutputStream.java:29-33 | after any sequence of writes and flushes the buffer holds at most 250 characters |
| `OutputStream.StepConserves` | src/main/java/com/wandb/client/WandbOutputStream.java:25-40 | one write or flush loses and duplicates no text: chunks plus buffer grow by exactly the written text |
| `OutputStream.Conservation` | src/main/java/com/wandb/client/WandbOutputStream.java:25-40 | the flushed chunks in emission order (markers removed) followed by the buffer equal all text written since construction |
| `OutputStream.SingleCharAutoChunks` | src/main/java/com/wandb/client/WandbOutputStream.java:29-33 | with one-character writes every automatic flush prints exactly 251 characters |
| `OutputStream.FlushTwice` | src/main/java/com/wandb/client/WandbOutputStream.java:36-40 | a second flush right after a first prints an empty chunk and its marker only, with no repeated content |
| `Records.EncodeValue` | src/main/java/com/wandb/client/WandbRun.java:98-99 | a String becomes `"` + its text + `"` with nothing escaped; any other value becomes its `toString()` |
| `Records.EncodeDiffersOnlyOnStrings` | src/main/java/com/wandb/client/WandbRun.java:116-117 | the encoding equals `toString()` if and only if the value is not a String |
| `Records.EncodedStringUnquotes` | src/main/java/com/wandb/client/WandbRun.java:98-99 | stripping the two quotes of an encoded string gives back its text verbatim |
| `Records.EncodedIntReadsBack` | src/main/java/com/wandb/client/WandbRun.java:96-99 | an `int` is encoded unquoted, as decimal text that reads back as the `int` |
| `Records.MakeLogData` | src/main/java/com/wandb/client/WandbRun.java:93-109 | the history batch has one item per entry, in key-iteration order, with the entry's key and encoded value |
| `Records.MakeConfigData` | src/main/java/com/wandb/client/WandbRun.java:111-127 | the config batch has one item per entry, in key-iteration order, with the entry's key and encoded value |
| `Records.LogItemsOnePerKey` | src/main/java/com/wandb/client/WandbRun.java:93-109 | a key has an item exactly when it is in the object, no key has two, and each item's value is the encoding of its key's value |
| `Records.LogAndConfigAgree` | src/main/java/com/wandb/client/WandbRun.java:93-127 | both builders yield the same key/value pairs in the same order |
| `Records.StepItemInLogData` | src/main/java/com/wandb/client/WandbRun.java:148-151 | after `_step` is put, the batch has exactly one `_step` item, valued with the unquoted decimal of the step; other keys keep their values |
| `JsonItems.NewItem` | src/main/java/com/wandb/client/JSONItem.java:24-27 | the constructor leaves `key` null whatever key it is given |
| `JsonItems.FromJson` | src/main/java/com/wandb/client/JSONItem.java:12-18 | one item per key in key-iteration order, each with a null key, an empty `nested` set and the value's `toString()`; the object is only read |
| `JsonItems.ItemsVersusLogItems` | src/main/java/com/wandb/client/JSONItem.java:24-31 | against the log encoder, `fromJson` drops the key and leaves strings unquoted; the values agree exactly on non-strings |
| `Run.FirstSuccess` | src/main/java/com/wandb/client/WandbRun.java:38-45 | the handshake ends on the first answered attempt; every earlier attempt was refused |
| `Run.HandshakeCounts` | src/main/java/com/wandb/client/WandbRun.java:38-45 | a handshake answered on attempt k sends the request k + 1 times, sleeps exactly k times (one per refusal) and ends with the answered request |
| `Run.WandbRun.constructor` | src/main/java/com/wandb/client/WandbRun.java:20-52 | in order: the server starts with `--port <port>`, the channel opens to the builder's address and port, then the handshake runs; the run is the first answer; the counter is 0; the output stream is created afterwards over the console |
| `Run.WandbRun.LogAt` | src/main/java/com/wandb/client/WandbRun.java:148-151 | `_step` is put into the caller's own object, that object's history batch is sent, the counter is unchanged, and the RPC's reply or exception is returned |
| `Run.WandbRun.Log` | src/main/java/com/wandb/client/WandbRun.java:144-146 | the counter is incremented first, and the batch sent carries the new counter as `_step` |
| `Run.AutoStepsSnoc` | src/main/java/com/wandb/client/WandbRun.java:144-146 | each further `log(json)` sends the incremented counter and leaves the counter there |
| `Run.AutoStepsFromZero` | src/main/java/com/wandb/client/WandbRun.java:144-146 | from counter 0, n calls of `log(json)` send steps 1, 2, ..., n in call order and leave the counter at n |
| `Run.LogRepeatedly` | src/main/java/com/wandb/client/WandbRun.java:144-146 | n calls of `log(json)` on the class, from counter 0, send exactly `AutoSteps(0, n)` and leave the counter at `CounterAfter(0, n)` |
| `Run.LogThreeTimes` | src/main/java/com/wandb/client/WandbRun.java:144-146 | three calls of `log(json)` from counter 0 send steps 1, 2, 3 and leave the counter at 3 |
| `Run.FinishSeven` | src/main/java/com/wandb/client/WandbRun.java:169-198 | `finish(7)` with both RPCs acknowledged and a working reset appends flush, reset, close, exit(7), shutdown, channel shutdown, process wait, in that order, and returns the acknowledgement |
| `Run.AutoStepsWrap` | src/main/java/com/wandb/client/WandbRun.java:145 | the call after counter MaxInt sends MinInt (Java `int` overflow) |
| `Run.WandbRun.Exit` | src/main/java/com/wandb/client/WandbRun.java:181-183 | a run-exit carrying the exit code is sent; its exception is not caught |
| `Run.WandbRun.Shutdown` | src/main/java/com/wandb/client/WandbRun.java:185-198 | server-shutdown is sent; if it raised nothing else happens, otherwise the channel is shut down and then the process awaited |
| `Run.WandbRun.Finish` | src/main/java/com/wandb/client/WandbRun.java:169-179 | the output is flushed (buffer then final marker printed to the console), reset and, unless reset failed, closed; then exit, then shutdown; the first RPC exception is returned |
| `Run.WandbRun.Teardown` | src/main/java/com/wandb/client/WandbRun.java:170-179 | the events of `finish(exitCode)`: flush, reset and, unless reset failed, close; then exit; then shutdown only when exit did not raise; the trace grows by exactly `FinishTrace` and nothing else of the run changes |
| `Run.WandbRun.FinishDefault` | src/main/java/com/wandb/client/WandbRun.java:165-167 | `finish()` is `finish(0)` |
| `Run.FinishOrder` | src/main/java/com/wandb/client/WandbRun.java:169-198 | whatever the drain does, run-exit is sent after it; shutdown is sent exactly when exit did not raise, and after exit; channel shutdown and process wait happen exactly when neither RPC raised, in that order |
| `Run.Builder.constructor` | src/main/java/com/wandb/client/WandbRun.java:200-207 | defaults: port 50051, address `"localhost"`, empty run record |
| `Run.Builder.WithName` | src/main/java/com/wandb/client/WandbRun.java:214-217 | sets the display name only |
| `Run.Builder.WithConfig` | src/main/java/com/wandb/client/WandbRun.java:224-227 | replaces the config with the config batch of the object only |
| `Run.Builder.WithProject` | src/main/java/com/wandb/client/WandbRun.java:234-237 | sets the project only |
| `Run.Builder.WithNotes` | src/main/java/com/wandb/client/WandbRun.java:244-247 | sets the notes only |
| `Run.Builder.SetJobType` | src/main/java/com/wandb/client/WandbRun.java:254-257 | sets the job type only |
| `Run.Builder.WithRunGroup` | src/main/java/com/wandb/client/WandbRun.java:264-267 | sets the run group only |
| `Run.Builder.SetSweepId` | src/main/java/com/wandb/client/WandbRun.java:269-272 | sets the sweep id only |
| `Run.Builder.SetTags` | src/main/java/com/wandb/client/WandbRun.java:279-282 | appends the tags after the existing ones |
| `Run.Builder.ClearTags` | src/main/java/com/wandb/client/WandbRun.java:287-290 | empties the tags only |
| `Run.Builder.SetHost` | src/main/java/com/wandb/client/WandbRun.java:293-296 | sets the host only |
| `Run.Builder.OnAddress` | src/main/java/com/wandb/client/WandbRun.java:303-306 | overwrites the server address only |
| `Run.Builder.OnPort` | src/main/java/com/wandb/client/WandbRun.java:313-316 | overwrites the server port only |
| `Run.Builder.Build` | src/main/java/com/wandb/client/WandbRun.java:321-323 | builds a run from the builder's request, address and port |

## Left out

- Run.WandbRun.constructor: a backend that never answers makes the Java loop spin forever. The model requires that some attempt in the reply sequence is answered (`EventuallyAnswers`), so it does not capture the non-terminating case. The length of the reply sequence is unbounded, so there is no bound on attempts.
- Run.WandbRun.constructor: a failure to start the process (`IOException` from `pb.start`) and an interrupted `Thread.sleep` both abort construction in Java. They are not modelled, because they are foreign I/O.
- `System.setOut(new PrintStream(output))` (`WandbRun.java:50`) is a process-wide redirection and is not modelled. Text printed by the program reaches the stream only through explicit `Write` calls.
- The `close()` after `resetOut()` is `OutputStream.close()`, which does nothing. Its failure would be swallowed and nothing follows it inside the `try`, so no parameter models it.
- An interrupted process wait is swallowed and has no other effect, so it is not a parameter.
- Closing the channel is recorded as an event; its own failure modes are not modelled.
- Timing: each sleep is recorded as one `Slept(200)` event, with no duration.
- `main` and `printRunInfo` are demo and console code (floating point, URL printing) and are not modelled. `data()` is modelled as the accessor `Run.WandbRun.Data` with no contract.
- org.json: `JSONObject` is a hash map whose key-iteration order is unspecified. The model fixes one order: entries in insertion order. The properties that do not mention order hold for whatever order is used: `Records.LogItemsOnePerKey`, `Records.StepItemInLogData`, `Json.PutLookupSame`, `Json.PutLookupOther`, `Json.JsonObject.Put`'s distinct keys, and everything about the output stream and the teardown. `toString()` of doubles and other objects is abstract (`JOther` carries it). A `put` with a null value, which removes the key, is not modelled.
- Json.PutEntry: its order clause (a new key goes after the others) and the exact item order in `Run.WandbRun.LogAt`'s traced batch are consequences of the insertion order chosen for `JSONObject`, not promises of org.json, whose iteration order is unspecified.
- Protobuf setters reject `null` with an exception; the model has no null strings.
- `new String(int[], offset, length)` decodes code points. The model writes characters, so invalid code points (`IllegalArgumentException`) and supplementary characters (two UTF-16 units in the buffer length) are not modelled.
- `println` appends the platform line separator; the model uses `"\n"`.
- Getters `JsonItem.GetKey` and `JsonItem.GetValue` return the fields and carry no contract of their own; `JsonItems.FromJson` and `JsonItems.NewItem` state what they return.
