/** The read loop of a connection: which bytes one call takes off the socket, and where it puts
    them. */
module Network {
  import opened Wire

  const READ_BUFFER: nat := 4096

  /** `buffer_index` is meant to move for file-backed reads only. As written it moves for every
      read, so that a second read into memory lands at the start of the buffer. */
  datatype Offsets = MovesAlways | MovesForFiles

  function Min(a: nat, b: nat): nat
  {
    if a < b then a else b
  }

  /** What one `read` delivers: never more than is missing, than a buffer, or than is there.
      A result of zero stands for every outcome that ends the loop. */
  function Chunk(need: nat, available: nat, want: nat): (n: nat)
    ensures n <= need && n <= available && n <= READ_BUFFER
  {
    Min(want, Min(available, Min(need, READ_BUFFER)))
  }

  lemma SliceTwice(input: seq<byte>, i: nat, j: nat, k: nat, k': nat, a: seq<byte>, b: seq<byte>, both: seq<byte>)
    requires i <= j <= k <= |input| && k == k'
    requires a == input[i..j] && b == input[j..k'] && both == input[i..k]
    ensures both == a + b
  {
  }

  /** The number of bytes that one call takes. */
  function Taken(need: nat, available: nat, cuts: seq<nat>): (n: nat)
    ensures n <= need && n <= available
  {
    if need == 0 || cuts == [] then 0
    else
      var n := Chunk(need, available, cuts[0]);
      if n == 0 then 0 else n + Taken(need - n, available - n, cuts[1..])
  }

  /** The number of `read`s in one call that deliver bytes. */
  function DataReads(need: nat, available: nat, cuts: seq<nat>): nat
  {
    if need == 0 || cuts == [] then 0
    else
      var n := Chunk(need, available, cuts[0]);
      if n == 0 then 0 else 1 + DataReads(need - n, available - n, cuts[1..])
  }

  /** A buffer after bytes were stored at a position. */
  function Stored(buffer: seq<byte>, at: nat, bs: seq<byte>): (r: seq<byte>)
    requires at + |bs| <= |buffer|
    ensures |r| == |buffer|
  {
    buffer[..at] + bs + buffer[at + |bs|..]
  }

  /** The buffer after one call for a phase that is kept in memory. */
  function MemoryAfter(offsets: Offsets, buffer: seq<byte>, index: nat, bufferIndex: nat, need: nat,
                       input: seq<byte>, cuts: seq<nat>): (r: seq<byte>)
    requires bufferIndex <= index && index + need <= |buffer|
    ensures |r| == |buffer|
    decreases cuts
  {
    if need == 0 || cuts == [] then buffer
    else
      var n := Chunk(need, |input|, cuts[0]);
      if n == 0 then buffer
      else MemoryAfter(offsets, Stored(buffer, index - bufferIndex, input[..n]), index + n,
                       if offsets.MovesAlways? then index + n else bufferIndex, need - n, input[n..], cuts[1..])
  }

  lemma PieceBehind(buffer: seq<byte>, index: nat, input: seq<byte>, n: nat, m: nat, next: seq<byte>)
    requires index + n <= |buffer| && n + m <= |input| && next == Stored(buffer, index, input[..n])
    ensures next[..index + n] + input[n..][..m] == buffer[..index] + input[..n + m]
  {
    assert next[..index + n] == buffer[..index] + input[..n];
    assert input[..n] + input[n..][..m] == input[..n + m];
  }

  /** With the meant offsets the bytes arrive one behind the other, however they are cut. */
  lemma {:induction false} MeantOffsetsKeepOrder(buffer: seq<byte>, index: nat, need: nat, input: seq<byte>,
                                                 cuts: seq<nat>)
    requires index + need <= |buffer|
    ensures var n, after := Taken(need, |input|, cuts), MemoryAfter(MovesForFiles, buffer, index, 0, need, input, cuts);
            after[..index + n] == buffer[..index] + input[..n]
    decreases cuts
  {
    if need > 0 && cuts != [] {
      var n := Chunk(need, |input|, cuts[0]);
      if n > 0 {
        var tail, rest, next := input[n..], cuts[1..], Stored(buffer, index, input[..n]);
        var m := Taken(need - n, |tail|, rest);
        MeantOffsetsKeepOrder(next, index + n, need - n, tail, rest);
        PieceBehind(buffer, index, input, n, m, next);
      }
    }
  }

  /** As written, a single read in a call is stored correctly. */
  lemma OneReadIsStored(buffer: seq<byte>, index: nat, need: nat, input: seq<byte>, cuts: seq<nat>)
    requires index + need <= |buffer|
    requires DataReads(need, |input|, cuts) <= 1
    ensures var n, after := Taken(need, |input|, cuts), MemoryAfter(MovesAlways, buffer, index, 0, need, input, cuts);
            after[..index + n] == buffer[..index] + input[..n]
  {
    if need > 0 && cuts != [] {
      var n := Chunk(need, |input|, cuts[0]);
      if n > 0 {
        var rest := cuts[1..];
        assert Taken(need - n, |input| - n, rest) == 0;
        assert |input[n..]| == |input| - n;
        var first := Stored(buffer, index, input[..n]);
        assert MemoryAfter(MovesAlways, first, index + n, index + n, need - n, input[n..], rest) == first;
      }
    }
  }

  /** So a call keeps its input in order with the meant offsets, and as written with one read. */
  lemma CallKeepsOrder(offsets: Offsets, buffer: seq<byte>, index: nat, need: nat, input: seq<byte>, cuts: seq<nat>)
    requires index + need <= |buffer|
    requires offsets.MovesForFiles? || DataReads(need, |input|, cuts) <= 1
    ensures var n, after := Taken(need, |input|, cuts), MemoryAfter(offsets, buffer, index, 0, need, input, cuts);
            after[..index + n] == buffer[..index] + input[..n]
  {
    if offsets.MovesForFiles? {
      MeantOffsetsKeepOrder(buffer, index, need, input, cuts);
    } else {
      OneReadIsStored(buffer, index, need, input, cuts);
    }
  }

  // ----- part of the way through a call ------------------------------------------------------

  /** A call of the loop: the buffer and the position it starts with, the bytes it asks for, what
      is there to be read, and how the reads are cut. */
  datatype Call = Call(offsets: Offsets, buffer: seq<byte>, index: nat, need: nat, input: seq<byte>, cuts: seq<nat>)

  /** The bytes read so far and those still to come are all the bytes of the call. */
  ghost predicate Counted(call: Call, done: nat, cuts: seq<nat>)
  {
    && done <= call.need && done <= |call.input|
    && Taken(call.need, |call.input|, call.cuts) == done + Taken(call.need - done, |call.input| - done, cuts)
  }

  /** The rest of the call leaves in memory what all of it does. */
  ghost predicate Remembered(call: Call, done: nat, buffer: seq<byte>, bufferIndex: nat, cuts: seq<nat>)
  {
    && done <= call.need && done <= |call.input|
    && call.index + call.need <= |call.buffer| == |buffer| && bufferIndex <= call.index + done
    && MemoryAfter(call.offsets, call.buffer, call.index, 0, call.need, call.input, call.cuts)
       == MemoryAfter(call.offsets, buffer, call.index + done, bufferIndex, call.need - done, call.input[done..], cuts)
  }

  /** The bytes that the next read of a call delivers. */
  function NextRead(call: Call, done: nat, cuts: seq<nat>): nat
    requires done <= call.need && done <= |call.input|
  {
    if cuts == [] then 0 else Chunk(call.need - done, |call.input| - done, cuts[0])
  }

  lemma StaysCounted(call: Call, done: nat, cuts: seq<nat>, done': nat, cuts': seq<nat>)
    requires Counted(call, done, cuts) && NextRead(call, done, cuts) > 0
    requires done' == done + NextRead(call, done, cuts) && cuts' == cuts[1..]
    ensures Counted(call, done', cuts')
  {
  }

  lemma StaysRemembered(call: Call, done: nat, buffer: seq<byte>, bufferIndex: nat, cuts: seq<nat>,
                        done': nat, buffer': seq<byte>, bufferIndex': nat, cuts': seq<nat>)
    requires Remembered(call, done, buffer, bufferIndex, cuts) && NextRead(call, done, cuts) > 0
    requires done' == done + NextRead(call, done, cuts) && cuts' == cuts[1..]
    requires buffer' == Stored(buffer, call.index + done - bufferIndex, call.input[done..done'])
    requires bufferIndex' == if call.offsets.MovesAlways? then call.index + done' else bufferIndex
    ensures Remembered(call, done', buffer', bufferIndex', cuts')
  {
    assert call.input[done..][..done' - done] == call.input[done..done'];
    assert call.input[done..][done' - done..] == call.input[done'..];
  }

  lemma CallStarts(call: Call)
    ensures Counted(call, 0, call.cuts)
    ensures call.index + call.need <= |call.buffer| ==> Remembered(call, 0, call.buffer, 0, call.cuts)
  {
    assert call.input[0..] == call.input;
  }

  lemma CountEnds(call: Call, done: nat, cuts: seq<nat>)
    requires Counted(call, done, cuts) && NextRead(call, done, cuts) == 0
    ensures done == Taken(call.need, |call.input|, call.cuts)
  {
  }

  lemma CallEnds(call: Call, done: nat, buffer: seq<byte>, bufferIndex: nat, cuts: seq<nat>)
    requires Remembered(call, done, buffer, bufferIndex, cuts) && NextRead(call, done, cuts) == 0
    requires done == Taken(call.need, |call.input|, call.cuts)
    requires call.offsets.MovesForFiles? || DataReads(call.need, |call.input|, call.cuts) <= 1
    ensures buffer[..call.index + done] == call.buffer[..call.index] + call.input[..done]
  {
    CallKeepsOrder(call.offsets, call.buffer, call.index, call.need, call.input, call.cuts);
  }

  /** As written, every read after the first one of a call overwrites the first byte. */
  lemma {:induction false} LaterReadsOverwrite(buffer: seq<byte>, index: nat, need: nat, input: seq<byte>,
                                               cuts: seq<nat>, v: byte)
    requires index + need <= |buffer|
    requires forall i :: 0 <= i < |input| ==> input[i] == v
    requires DataReads(need, |input|, cuts) >= 1 || (buffer != [] && buffer[0] == v)
    ensures buffer != [] && MemoryAfter(MovesAlways, buffer, index, index, need, input, cuts)[0] == v
    decreases cuts
  {
    if need > 0 && cuts != [] {
      var n := Chunk(need, |input|, cuts[0]);
      if n > 0 {
        LaterReadsOverwrite(Stored(buffer, 0, input[..n]), index + n, need - n, input[n..], cuts[1..], v);
      }
    }
  }

  lemma FirstBytesDiffer(after: seq<byte>, index: nat, buffer: seq<byte>, input: seq<byte>, total: nat, v: byte)
    requires index + total <= |after| == |buffer| && 0 < total <= |input|
    requires after[0] == v && (if index > 0 then buffer[0] else input[0]) != v
    ensures after[..index + total] != buffer[..index] + input[..total]
  {
    assert after[..index + total][0] == v;
    assert (buffer[..index] + input[..total])[0] == if index > 0 then buffer[0] else input[0];
  }

  lemma ReadsGarble(buffer: seq<byte>, index: nat, need: nat, input: seq<byte>, cuts: seq<nat>, n: nat, v: byte)
    requires index + need <= |buffer| && DataReads(need, |input|, cuts) >= 2 && n == Chunk(need, |input|, cuts[0])
    requires (forall i :: n <= i < |input| ==> input[i] == v) && (if index > 0 then buffer[0] else input[0]) != v
    ensures var total := Taken(need, |input|, cuts);
            MemoryAfter(MovesAlways, buffer, index, 0, need, input, cuts)[..index + total]
            != buffer[..index] + input[..total]
  {
    var tail, first := input[n..], Stored(buffer, index, input[..n]);
    LaterReadsOverwrite(first, index + n, need - n, tail, cuts[1..], v);
    FirstBytesDiffer(MemoryAfter(MovesAlways, buffer, index, 0, need, input, cuts), index, buffer, input,
                     Taken(need, |input|, cuts), v);
  }

  /** An input that two reads in one call garble, whatever the buffer held before. */
  lemma TwoReadsGarble(buffer: seq<byte>, index: nat, need: nat, available: nat, cuts: seq<nat>)
    returns (input: seq<byte>)
    requires index + need <= |buffer|
    requires DataReads(need, available, cuts) >= 2
    ensures |input| == available
    ensures var n, after := Taken(need, |input|, cuts), MemoryAfter(MovesAlways, buffer, index, 0, need, input, cuts);
            after[..index + n] != buffer[..index] + input[..n]
  {
    var v: byte := if index > 0 && buffer[0] == 0 then 1 else 0;
    input := seq(available, i => if i == 0 && index == 0 then 1 else v);
    ReadsGarble(buffer, index, need, input, cuts, Chunk(need, available, cuts[0]), v);
  }

  /** As written, a call keeps every input in order if and only if at most one of its reads
      delivers bytes. */
  lemma WrittenOffsetsKeepOrderIff(buffer: seq<byte>, index: nat, need: nat, available: nat, cuts: seq<nat>)
    requires index + need <= |buffer|
    ensures (forall input: seq<byte> :: |input| == available ==>
               MemoryAfter(MovesAlways, buffer, index, 0, need, input, cuts)[..index + Taken(need, available, cuts)]
               == buffer[..index] + input[..Taken(need, available, cuts)])
            <==> DataReads(need, available, cuts) <= 1
  {
    if DataReads(need, available, cuts) <= 1 {
      forall input: seq<byte> | |input| == available
        ensures MemoryAfter(MovesAlways, buffer, index, 0, need, input, cuts)[..index + Taken(need, available, cuts)]
                == buffer[..index] + input[..Taken(need, available, cuts)]
      {
        OneReadIsStored(buffer, index, need, input, cuts);
      }
    } else {
      var input := TwoReadsGarble(buffer, index, need, available, cuts);
      assert |input| == available;
    }
  }
}
