/**
 * WandbOutputStream: the stream that captures standard output during a run.
 * Text written to it accumulates in a buffer; once the buffer grows past
 * 250 characters it is printed to the saved original stream followed by an
 * "automatic" marker line, and `flush` prints whatever remains followed by a
 * "final" marker line.
 *
 * The buffer's behaviour is given twice: as a pure state machine (Step,
 * Replay) about which the conservation and bound properties are proved, and
 * as the class, whose invariant ties its fields to that state machine.
 */
module OutputStream {
  const Threshold := 250
  const AutoMarker := "Flushing output [AUTOMATICALLY]"
  const FinalMarker := "Flushing output [FINAL]"
  /** What `println` appends after its argument. */
  const LineSeparator := "\n"

  /** java.io.PrintStream, reduced to the text printed on it so far. */
  class PrintStream {
    var text: string

    constructor (initial: string)
      ensures text == initial
    {
      text := initial;
    }

    method Print(s: string)
      modifies this
      ensures text == old(text) + s
    {
      text := text + s;
    }

    method Println(s: string)
      modifies this
      ensures text == old(text) + s + LineSeparator
    {
      text := text + s + LineSeparator;
    }
  }

  datatype FlushKind = Automatic | Final

  /** One flush: the buffer contents it printed and the kind of marker after them. */
  datatype Chunk = Chunk(content: string, kind: FlushKind)

  function Marker(kind: FlushKind): string {
    match kind
    case Automatic => AutoMarker
    case Final => FinalMarker
  }

  /** What a sequence of flushes prints on the original stream. */
  function Render(chunks: seq<Chunk>): string {
    if chunks == [] then ""
    else
      var last := chunks[|chunks| - 1];
      Render(chunks[..|chunks| - 1]) + last.content + Marker(last.kind) + LineSeparator
  }

  /** The flushed text alone, markers removed, in emission order. */
  function Contents(chunks: seq<Chunk>): string {
    if chunks == [] then "" else Contents(chunks[..|chunks| - 1]) + chunks[|chunks| - 1].content
  }

  /** A call on the stream: `write` of some text, or `flush`. */
  datatype Op = WriteCall(text: string) | FlushCall

  /** The stream's state: the buffer, and every flush emitted so far. */
  datatype State = State(buffer: string, chunks: seq<Chunk>)

  function Step(st: State, op: Op): State {
    match op
    case WriteCall(s) =>
      var b := st.buffer + s;
      if |b| > Threshold then State("", st.chunks + [Chunk(b, Automatic)]) else State(b, st.chunks)
    case FlushCall =>
      State("", st.chunks + [Chunk(st.buffer, Final)])
  }

  /** The state after a sequence of calls on a freshly constructed stream. */
  function Replay(ops: seq<Op>): State {
    if ops == [] then State("", []) else Step(Replay(ops[..|ops| - 1]), ops[|ops| - 1])
  }

  /** The text one call writes. */
  function OpText(op: Op): string {
    if op.WriteCall? then op.text else ""
  }

  /** All text written by a sequence of calls, in order. */
  function Written(ops: seq<Op>): string {
    if ops == [] then "" else Written(ops[..|ops| - 1]) + OpText(ops[|ops| - 1])
  }

  lemma ReplaySnoc(ops: seq<Op>, op: Op)
    ensures Replay(ops + [op]) == Step(Replay(ops), op)
  {
    assert (ops + [op])[..|ops|] == ops;
  }

  /** A new flush prints its content and its marker line after everything printed before. */
  lemma RenderSnoc(prefix: string, chunks: seq<Chunk>, c: Chunk)
    ensures prefix + Render(chunks + [c]) == prefix + Render(chunks) + c.content + Marker(c.kind) + LineSeparator
  {
    assert (chunks + [c])[..|chunks|] == chunks;
  }

  lemma ContentsSnoc(chunks: seq<Chunk>, c: Chunk)
    ensures Contents(chunks + [c]) == Contents(chunks) + c.content
  {
    assert (chunks + [c])[..|chunks|] == chunks;
  }

  /** After any sequence of calls the buffer holds at most 250 characters. */
  lemma BufferBounded(ops: seq<Op>)
    ensures |Replay(ops).buffer| <= Threshold
  {
  }

  /** One call moves its text into the buffer or, with the buffer, into a new chunk. */
  lemma StepConserves(st: State, op: Op)
    ensures Contents(Step(st, op).chunks) + Step(st, op).buffer == Contents(st.chunks) + st.buffer + OpText(op)
  {
    var next := Step(st, op);
    if next.chunks != st.chunks {
      var c := next.chunks[|next.chunks| - 1];
      assert next.chunks == st.chunks + [c];
      ContentsSnoc(st.chunks, c);
      assert c.content == st.buffer + OpText(op) && next.buffer == "";
    }
  }

  /**
   * Conservation: the flushed chunks in emission order, followed by what is
   * still buffered, are exactly the text written since construction.
   */
  lemma {:induction false} Conservation(ops: seq<Op>)
    ensures Contents(Replay(ops).chunks) + Replay(ops).buffer == Written(ops)
  {
    if ops != [] {
      var init, last := ops[..|ops| - 1], ops[|ops| - 1];
      Conservation(init);
      StepConserves(Replay(init), last);
    }
  }

  /** True when every `write` call carries exactly one character. */
  predicate SingleCharWrites(ops: seq<Op>) {
    forall i :: 0 <= i < |ops| && ops[i].WriteCall? ==> |ops[i].text| == 1
  }

  /** With one-character writes every automatic flush prints exactly 251 characters. */
  lemma {:induction false} SingleCharAutoChunks(ops: seq<Op>)
    requires SingleCharWrites(ops)
    ensures forall i :: 0 <= i < |Replay(ops).chunks| && Replay(ops).chunks[i].kind == Automatic ==>
              |Replay(ops).chunks[i].content| == Threshold + 1
  {
    if ops != [] {
      var init := ops[..|ops| - 1];
      assert SingleCharWrites(init) by {
        forall i | 0 <= i < |init| && init[i].WriteCall? ensures |init[i].text| == 1 {
          assert init[i] == ops[i];
        }
      }
      SingleCharAutoChunks(init);
      BufferBounded(init);
    }
  }

  /** A second `flush` right after a first prints only its marker. */
  lemma FlushTwice(ops: seq<Op>)
    ensures Replay(ops + [FlushCall, FlushCall]).chunks ==
            Replay(ops).chunks + [Chunk(Replay(ops).buffer, Final), Chunk("", Final)]
    ensures Replay(ops + [FlushCall, FlushCall]).buffer == ""
  {
    ReplaySnoc(ops, FlushCall);
    ReplaySnoc(ops + [FlushCall], FlushCall);
    assert ops + [FlushCall] + [FlushCall] == ops + [FlushCall, FlushCall];
  }

  class WandbOutputStream {
    /** The `stringBuilder` field: text written since the last flush. */
    var buffer: string
    /** The stream that was `System.out` when this one was constructed. */
    var original: PrintStream
    /** Every call made on this stream since construction. */
    ghost var ops: seq<Op>
    /** Every flush this stream has printed on `original`. */
    ghost var chunks: seq<Chunk>
    /** The text `original` held at construction. */
    ghost var base: string

    ghost predicate Valid()
      reads this, original
    {
      && |buffer| <= Threshold
      && Replay(ops) == State(buffer, chunks)
      && original.text == base + Render(chunks)
    }

    /** `new WandbOutputStream()`: empty buffer, `original` is the current standard output. */
    constructor (systemOut: PrintStream)
      ensures Valid()
      ensures original == systemOut && buffer == "" && ops == [] && base == systemOut.text
    {
      original := systemOut;
      buffer := "";
      ops := [];
      chunks := [];
      base := systemOut.text;
    }

    /** `write(int b)`: the same as writing the one-element array [b] from offset 0. */
    method WriteUnit(b: char)
      requires Valid()
      modifies this, original
      ensures Valid() && original == old(original) && base == old(base)
      ensures ops == old(ops) + [WriteCall([b])]
      ensures |old(buffer)| + 1 <= Threshold ==>
                buffer == old(buffer) + [b] && original.text == old(original.text)
      ensures |old(buffer)| + 1 > Threshold ==>
                buffer == "" && original.text == old(original.text) + old(buffer) + [b] + AutoMarker + LineSeparator
    {
      var ok := Write([b], 0, 1);
      assert [b][0..1] == [b];
    }

    /**
     * `write(int[] bytes, int offset, int length)`. An offset or length outside
     * the array raises IndexOutOfBoundsException before anything changes;
     * `ok` is false exactly then.
     */
    method Write(units: seq<char>, offset: int, length: int) returns (ok: bool)
      requires Valid()
      modifies this, original
      ensures Valid() && original == old(original) && base == old(base)
      ensures ok <==> 0 <= offset && 0 <= length && offset + length <= |units|
      ensures !ok ==> buffer == old(buffer) && ops == old(ops) && original.text == old(original.text)
      ensures ok ==> ops == old(ops) + [WriteCall(units[offset..offset + length])]
      ensures ok && |old(buffer)| + length <= Threshold ==>
                buffer == old(buffer) + units[offset..offset + length] && original.text == old(original.text)
      ensures ok && |old(buffer)| + length > Threshold ==>
                && buffer == ""
                && original.text == old(original.text) + old(buffer) + units[offset..offset + length] + AutoMarker + LineSeparator
    {
      if !(0 <= offset && 0 <= length && offset + length <= |units|) {
        return false;
      }
      ok := true;
      var s := units[offset..offset + length];
      ReplaySnoc(ops, WriteCall(s));
      ops := ops + [WriteCall(s)];
      buffer := buffer + s;
      if |buffer| > Threshold {
        RenderSnoc(base, chunks, Chunk(buffer, Automatic));
        assert original.text + buffer == old(original.text) + old(buffer) + s;
        chunks := chunks + [Chunk(buffer, Automatic)];
        original.Print(buffer);
        original.Println(AutoMarker);
        buffer := "";
      }
    }

    /** `flush()`: print the whole buffer, then the final marker, and empty the buffer. */
    method Flush()
      requires Valid()
      modifies this, original
      ensures Valid() && original == old(original) && base == old(base)
      ensures ops == old(ops) + [FlushCall]
      ensures buffer == ""
      ensures original.text == old(original.text) + old(buffer) + FinalMarker + LineSeparator
    {
      ReplaySnoc(ops, FlushCall);
      RenderSnoc(base, chunks, Chunk(buffer, Final));
      ops := ops + [FlushCall];
      chunks := chunks + [Chunk(buffer, Final)];
      original.Print(buffer);
      original.Println(FinalMarker);
      buffer := "";
    }
  }
}
