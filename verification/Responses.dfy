/** The response writer: a packet is sent through one 4096-byte buffer, refilled as often as the
    payload needs. */
module Responses {
  import opened Wire

  const BUFFER_LENGTH: nat := 4096

  /** Where a payload comes from: a message text, a code without one, or a stored file. */
  datatype Source = Message(text: seq<byte>) | Silent | File(content: seq<byte>) {
    function Payload(): seq<byte>
    {
      match this
      case Message(text) => text
      case Silent => []
      case File(content) => content
    }
  }

  datatype WriteError = Success | ErrorWritingHeaders | NetworkErrorWrite

  function Zeros(n: nat): (z: seq<byte>)
    ensures |z| == n
  {
    seq(n, i => 0)
  }

  /** A serialized header with its padding to 16 bytes. */
  function Padded(header: seq<byte>): (p: seq<byte>)
    ensures |p| == Align(|header|) && header <= p
    ensures forall i :: |header| <= i < |p| ==> p[i] == 0
  {
    AlignIsLeast(|header|, |header|);
    header + Zeros(Align(|header|) - |header|)
  }

  function WordBytes(headerLength: nat, dataLength: nat): (bs: seq<byte>)
    ensures |bs| == MAGIC_LENGTH
  {
    LittleEndian(MakeMagic(headerLength, dataLength), MAGIC_LENGTH)
  }

  /** The packet head: the word, the serialized header and the padding. */
  function Head(header: seq<byte>, length: nat): (head: seq<byte>)
    ensures |head| == MAGIC_LENGTH + Align(|header|)
  {
    WordBytes(Align(|header|), length) + Padded(header)
  }

  function Frame(header: seq<byte>, payload: seq<byte>): seq<byte>
  {
    Head(header, |payload|) + payload
  }

  /** What the writer sends, by the length of the serialized header: up to 4080 bytes the whole
      frame; from there to 4088 the aligned header no longer fits and the first refill fails;
      above that the header is refused. */
  function Sent(header: seq<byte>, source: Source): (seq<byte>, WriteError)
  {
    if |header| > BUFFER_LENGTH - MAGIC_LENGTH then ([], ErrorWritingHeaders)
    else if Align(|header|) > BUFFER_LENGTH - MAGIC_LENGTH then ([], NetworkErrorWrite)
    else (Frame(header, source.Payload()), Success)
  }

  lemma AlignedFitsIff(length: nat)
    ensures Align(length) <= BUFFER_LENGTH - MAGIC_LENGTH <==> length <= 4080
  {
    AlignIsLeast(length, 4080);
  }

  /** The frame goes out if and only if the serialized header has at most 4080 bytes. */
  lemma FrameIsSentIff(header: seq<byte>, source: Source)
    ensures Sent(header, source) == (Frame(header, source.Payload()), Success) <==> |header| <= 4080
  {
    AlignedFitsIff(|header|);
  }

  class Response {
    var address: array<byte>
    var index: nat
    const capacity: nat
    var headerLength: nat
    var dataLength: nat
    var totalWriteCompleted: nat
    var sent: seq<byte>

    ghost predicate Valid()
      reads this
    {
      address.Length == capacity == BUFFER_LENGTH
    }

    constructor ()
      ensures Valid() && fresh(address) && sent == []
      ensures index == MAGIC_LENGTH && dataLength == 0 && totalWriteCompleted == 0
      ensures forall i :: 0 <= i < BUFFER_LENGTH ==> address[i] == 0
    {
      address := new byte[BUFFER_LENGTH](_ => 0);
      capacity := BUFFER_LENGTH;
      index, headerLength, dataLength, totalWriteCompleted, sent := MAGIC_LENGTH, 0, 0, 0, [];
    }

    /** `s3_response_writer_update` and `s3_action_request_writer`: the next piece of the payload
        is put where the buffer is free. Only the file writer keeps a length already known. */
    method Writer(source: Source) returns (written: int)
      requires Valid()
      requires totalWriteCompleted <= |source.Payload()|
      requires source.File? && dataLength != 0 ==> dataLength == |source.Payload()|
      requires source.Silent? ==> dataLength == 0
      modifies this`dataLength, this`totalWriteCompleted, this`index, address
      ensures dataLength == |source.Payload()|
      ensures var payload, done := source.Payload(), old(totalWriteCompleted);
              var todo := if |payload| - done > capacity - old(index) then capacity - old(index) else |payload| - done;
              && written == (if source.Silent? then 0 else todo)
              && (todo <= 0 || source.Silent? ==>
                    totalWriteCompleted == done && index == old(index) && address[..] == old(address[..]))
              && (todo > 0 && !source.Silent? ==>
                    && totalWriteCompleted == done + todo && index == old(index) + todo
                    && address[..index] == old(address[..index]) + payload[done..done + todo])
    {
      match source {
        case Silent =>
          return 0;
        case Message(text) =>
          dataLength := |text|;
        case File(content) =>
          if dataLength == 0 {
            dataLength := |content|;
          }
      }
      var payload := source.Payload();
      var available := capacity - index;
      var required := |payload| - totalWriteCompleted;
      written := if required > available then available else required;
      if written > 0 {
        forall i | 0 <= i < written {
          address[index + i] := payload[totalWriteCompleted + i];
        }
        totalWriteCompleted := totalWriteCompleted + written;
        index := index + written;
      }
    }

    method PutMagic()
      requires Valid() && MAGIC_LENGTH <= index <= capacity
      modifies address
      ensures address[..index] == WordBytes(headerLength, dataLength) + old(address[MAGIC_LENGTH..index])
    {
      var bs := WordBytes(headerLength, dataLength);
      forall i | 0 <= i < MAGIC_LENGTH {
        address[i] := bs[i];
      }
    }

    /** `s3_response_write`: for every header and every payload, whatever its length relative to
        the buffer, the loop ends and exactly `Sent` has gone out. The one case left out is the
        code without a message under a header that does not fit, which reads past the buffer. */
    method Write(header: seq<byte>, source: Source) returns (error: WriteError)
      requires Valid() && sent == []
      requires index == MAGIC_LENGTH && dataLength == 0 && totalWriteCompleted == 0
      requires forall i :: 0 <= i < BUFFER_LENGTH ==> address[i] == 0
      requires source.Silent? ==> |header| <= 4080
      modifies this`headerLength, this`dataLength, this`totalWriteCompleted, this`index, this`sent, address
      ensures (sent, error) == Sent(header, source)
    {
      AlignIsLeast(|header|, |header|);
      AlignedFitsIff(|header|);
      if |header| > capacity - MAGIC_LENGTH {
        return ErrorWritingHeaders;
      }
      forall i | 0 <= i < |header| {
        address[MAGIC_LENGTH + i] := header[i];
      }
      headerLength := Align(|header|);
      index := index + headerLength;
      assert index <= capacity ==> address[MAGIC_LENGTH..index] == header + Zeros(Align(|header|) - |header|);
      error := Pump(header, source);
    }

    /** One turn of the loop: a refill, on the first turn behind the head, and a send. */
    method Turn(source: Source, first: bool) returns (written: int)
      requires Valid() && totalWriteCompleted <= |source.Payload()|
      requires first ==> dataLength == 0 && totalWriteCompleted == 0 && MAGIC_LENGTH <= index
      requires first && source.Silent? ==> index <= capacity
      requires !first ==> index == 0 && dataLength == |source.Payload()|
      modifies this`dataLength, this`totalWriteCompleted, this`index, this`sent, address
      ensures written < 0 <==> first && old(index) > capacity
      ensures written < 0 ==> sent == old(sent)
      ensures dataLength == |source.Payload()|
      ensures old(totalWriteCompleted) <= totalWriteCompleted <= |source.Payload()|
      ensures !first && old(totalWriteCompleted) < |source.Payload()| ==> old(totalWriteCompleted) < totalWriteCompleted
      ensures written >= 0 ==>
                var piece := source.Payload()[old(totalWriteCompleted)..totalWriteCompleted];
                sent == old(sent) +
                        if first then WordBytes(headerLength, dataLength) + old(address[MAGIC_LENGTH..index]) + piece
                        else piece
    {
      ghost var padded := if first && index <= capacity then address[MAGIC_LENGTH..index] else [];
      ghost var done := totalWriteCompleted;
      written := Writer(source);
      if written < 0 {
        return;
      }
      ghost var piece := source.Payload()[done..totalWriteCompleted];
      if first {
        assert address[MAGIC_LENGTH..index] == padded + piece;
        PutHead(padded, piece);
      } else {
        assert address[..index] == piece;
      }
      sent := sent + address[..index];
    }

    method PutHead(ghost padded: seq<byte>, ghost piece: seq<byte>)
      requires Valid() && MAGIC_LENGTH <= index <= capacity && address[MAGIC_LENGTH..index] == padded + piece
      modifies address
      ensures address[..index] == WordBytes(headerLength, dataLength) + padded + piece
    {
      PutMagic();
    }

    /** The loop of `s3_response_write`. */
    method Pump(header: seq<byte>, source: Source) returns (error: WriteError)
      requires Valid() && sent == [] && dataLength == 0 && totalWriteCompleted == 0
      requires headerLength == Align(|header|) && index == MAGIC_LENGTH + headerLength
      requires index <= capacity ==> address[MAGIC_LENGTH..index] == Padded(header)
      requires source.Silent? ==> index <= capacity
      modifies this`dataLength, this`totalWriteCompleted, this`index, this`sent, address
      ensures if old(index) > capacity then error == NetworkErrorWrite && sent == []
              else error == Success && sent == Frame(header, source.Payload())
    {
      ghost var payload, head := source.Payload(), Head(header, |source.Payload()|);
      var headerWritten := false;
      while true
        invariant totalWriteCompleted <= |payload|
        invariant !headerWritten ==>
                    && sent == [] && dataLength == 0 && totalWriteCompleted == 0 && index == old(index)
                    && (index <= capacity ==> address[MAGIC_LENGTH..index] == Padded(header))
        invariant headerWritten ==>
                    && old(index) <= capacity && index == 0
                    && dataLength == |payload| && totalWriteCompleted < |payload|
                    && sent == head + payload[..totalWriteCompleted]
        decreases !headerWritten, |payload| - totalWriteCompleted
      {
        ghost var done := totalWriteCompleted;
        var written := Turn(source, !headerWritten);
        if written < 0 {
          return NetworkErrorWrite;
        }
        SentGrows(head, payload, done, totalWriteCompleted);
        headerWritten := true;
        if totalWriteCompleted == dataLength {
          break;
        }
        index := 0;
      }
      error := Success;
    }
  }

  lemma SentGrows(head: seq<byte>, payload: seq<byte>, done: nat, more: nat)
    requires done <= more <= |payload|
    ensures head + payload[..done] + payload[done..more] == head + payload[..more]
    ensures done == 0 ==> [] + (head + payload[done..more]) == head + payload[..more]
    ensures more == |payload| ==> payload[..more] == payload
  {
  }

  // ----- the receiving side ------------------------------------------------------------------

  datatype Received = Incomplete | Corrupted | Packet(header: seq<byte>, payload: seq<byte>, rest: seq<byte>)

  /** A packet is taken off a stream by the lengths in its first word. */
  function ReadFrame(stream: seq<byte>): Received
  {
    if |stream| < MAGIC_LENGTH then Incomplete
    else
      var info := ParseMagic(FromLittleEndian(stream[..MAGIC_LENGTH]));
      var body := MAGIC_LENGTH + info.headerLength;
      if info.magic != MAGIC then Corrupted
      else if |stream| < body + info.dataLength then Incomplete
      else Packet(stream[MAGIC_LENGTH..body], stream[body..body + info.dataLength], stream[body + info.dataLength..])
  }

  lemma WordFields(length: nat, n: nat)
    requires length % 16 == 0 && length <= 4080
    ensures ParseMagic(FromLittleEndian(WordBytes(length, n))) == Header(MAGIC, length, n % 0x100_0000_0000)
  {
    WordOnTheWire(length, n);
    MadeIsRead(length, n);
  }

  lemma ReadParts(word: seq<byte>, padded: seq<byte>, payload: seq<byte>, rest: seq<byte>, info: Header,
                  stream: seq<byte>)
    requires |word| == MAGIC_LENGTH && ParseMagic(FromLittleEndian(word)) == info
    requires info.magic == MAGIC && info.headerLength == |padded| && info.dataLength <= |payload|
    requires stream == word + padded + payload + rest
    ensures ReadFrame(stream) == Packet(padded, payload, rest) <==> info.dataLength == |payload|
  {
    var body := MAGIC_LENGTH + |padded|;
    assert stream[..MAGIC_LENGTH] == word;
    assert stream[MAGIC_LENGTH..body] == padded;
    if info.dataLength == |payload| {
      assert stream[body..body + |payload|] == payload;
      assert stream[body + |payload|..] == rest;
    }
  }

  lemma FrameParts(header: seq<byte>, payload: seq<byte>, rest: seq<byte>, word: seq<byte>, padded: seq<byte>,
                   stream: seq<byte>)
    requires word == WordBytes(Align(|header|), |payload|) && padded == Padded(header)
    requires stream == Frame(header, payload) + rest
    ensures stream == word + padded + payload + rest
  {
  }

  lemma FieldsOf(length: nat, n: nat, word: seq<byte>, info: Header)
    requires length % 16 == 0 && length <= 4080 && word == WordBytes(length, n)
    requires info == Header(MAGIC, length, n % 0x100_0000_0000)
    ensures ParseMagic(FromLittleEndian(word)) == info && info.dataLength <= n
    ensures info.dataLength == n <==> n < 0x100_0000_0000
  {
    WordFields(length, n);
  }

  /** A frame is read back as its padded header and its payload, with nothing of the following
      stream touched, if and only if the payload is shorter than 2^40 bytes. */
  lemma FrameRoundTripIff(header: seq<byte>, payload: seq<byte>, rest: seq<byte>)
    requires |header| <= 4080
    ensures ReadFrame(Frame(header, payload) + rest) == Packet(Padded(header), payload, rest)
            <==> |payload| < 0x100_0000_0000
  {
    var length, n := Align(|header|), |payload|;
    var word, padded, info := WordBytes(length, n), Padded(header), Header(MAGIC, length, n % 0x100_0000_0000);
    var stream := Frame(header, payload) + rest;
    AlignIsLeast(|header|, 4080);
    FieldsOf(length, n, word, info);
    FrameParts(header, payload, rest, word, padded, stream);
    ReadParts(word, padded, payload, rest, info, stream);
  }
}
