/** Length-prefixed frames over a byte stream (crates/morons-protocol/src/framing.rs). */
module Framing {
  import opened Basics

  const FRAME_HEADER_BYTES := 4
  const MAX_FRAME_PAYLOAD_BYTES := 12 * 1024 * 1024
  const U32_LIMIT := 0x1_0000_0000

  datatype FrameError =
    | UnexpectedEof
    | PayloadTooLarge(payloadBytes: nat, maximumPayloadBytes: nat)

  datatype ReadOutcome =
    | EndOfStream
    | Frame(payload: seq<Byte>)
    | Failed(error: FrameError)

  // ----- the wire format -----

  function ToBigEndian(n: nat): (s: seq<Byte>)
    requires n < U32_LIMIT
    ensures |s| == FRAME_HEADER_BYTES
  {
    [n / 0x100_0000, n / 0x1_0000 % 0x100, n / 0x100 % 0x100, n % 0x100]
  }

  function FromBigEndian(s: seq<Byte>): (n: nat)
    requires |s| == FRAME_HEADER_BYTES
    ensures n < U32_LIMIT
  {
    s[0] as int * 0x100_0000 + s[1] as int * 0x1_0000 + s[2] as int * 0x100 + s[3] as int
  }

  lemma {:induction false} HeaderRoundTrip(n: nat)
    requires n < U32_LIMIT
    ensures FromBigEndian(ToBigEndian(n)) == n
  {
    assert n / 0x100 == n / 0x1_0000 * 0x100 + n / 0x100 % 0x100;
    assert n / 0x1_0000 == n / 0x100_0000 * 0x100 + n / 0x1_0000 % 0x100;
  }

  lemma {:induction false} HeaderUnique(s: seq<Byte>)
    requires |s| == FRAME_HEADER_BYTES
    ensures ToBigEndian(FromBigEndian(s)) == s
  {
    var n := FromBigEndian(s);
    assert n / 0x100 == s[0] as int * 0x1_0000 + s[1] as int * 0x100 + s[2] as int && n % 0x100 == s[3];
    assert n / 0x1_0000 == s[0] as int * 0x100 + s[1] as int && n / 0x100 % 0x100 == s[2];
    assert n / 0x100_0000 == s[0] && n / 0x1_0000 % 0x100 == s[1];
  }

  predicate Sendable(payload: seq<Byte>, maximum: nat)
  {
    |payload| <= maximum && |payload| < U32_LIMIT
  }

  function Encode(payload: seq<Byte>): (s: seq<Byte>)
    requires |payload| < U32_LIMIT
    ensures |s| == FRAME_HEADER_BYTES + |payload|
  {
    ToBigEndian(|payload|) + payload
  }

  predicate AllSendable(payloads: seq<seq<Byte>>, maximum: nat)
  {
    forall i :: 0 <= i < |payloads| ==> Sendable(payloads[i], maximum)
  }

  function EncodeAll(payloads: seq<seq<Byte>>, maximum: nat): seq<Byte>
    requires AllSendable(payloads, maximum)
  {
    if payloads == [] then [] else Encode(payloads[0]) + EncodeAll(payloads[1..], maximum)
  }

  /** What one read finds at the front of a stream. */
  function Parse(s: seq<Byte>, maximum: nat): (r: ReadOutcome)
    ensures r.Frame? ==> FRAME_HEADER_BYTES + |r.payload| <= |s| && Sendable(r.payload, maximum)
    ensures r.EndOfStream? <==> s == []
  {
    if s == [] then EndOfStream
    else if |s| < FRAME_HEADER_BYTES then Failed(UnexpectedEof)
    else
      var n := FromBigEndian(s[..FRAME_HEADER_BYTES]);
      if n > maximum then Failed(PayloadTooLarge(n, maximum))
      else if |s| - FRAME_HEADER_BYTES < n then Failed(UnexpectedEof)
      else Frame(s[FRAME_HEADER_BYTES..FRAME_HEADER_BYTES + n])
  }

  // ----- the streams -----

  class Writer {
    var output: seq<Byte>

    constructor ()
      ensures output == []
    {
      output := [];
    }

    method WriteAll(data: seq<Byte>)
      modifies this
      ensures output == old(output) + data
    {
      output := output + data;
    }

    /** Appends one whole frame, or refuses before the first byte goes out. */
    method WriteFrame(payload: seq<Byte>, maximum: nat) returns (r: Result<(), FrameError>)
      modifies this
      ensures r.Ok? <==> Sendable(payload, maximum)
      ensures r.Ok? ==> output == old(output) + Encode(payload)
      ensures r.Err? ==> output == old(output) && r.error == PayloadTooLarge(|payload|, maximum)
    {
      if |payload| > maximum {
        return Err(PayloadTooLarge(|payload|, maximum));
      }
      if |payload| >= U32_LIMIT {
        return Err(PayloadTooLarge(|payload|, maximum));
      }
      WriteAll(ToBigEndian(|payload|));
      WriteAll(payload);
      return Ok(());
    }
  }

  class Reader {
    var input: seq<Byte>

    constructor (input: seq<Byte>)
      ensures this.input == input
    {
      this.input := input;
    }

    /** One read into a one-byte buffer: zero only at the end of the stream. */
    method ReadOne(buffer: array<Byte>) returns (count: nat)
      requires buffer.Length > 0
      modifies this, buffer
      ensures count == Min(1, |old(input)|)
      ensures input == old(input)[count..]
      ensures count == 1 ==> buffer[0] == old(input)[0]
    {
      if input == [] {
        return 0;
      }
      buffer[0] := input[0];
      input := input[1..];
      return 1;
    }

    /** Fills `buffer[start..]`, or reports that the stream ended first. */
    method ReadExact(buffer: array<Byte>, start: nat) returns (filled: bool)
      requires start <= buffer.Length
      modifies this, buffer
      ensures buffer[..start] == old(buffer[..start])
      ensures filled <==> buffer.Length - start <= |old(input)|
      ensures filled ==> buffer[start..] == old(input)[..buffer.Length - start]
      ensures filled ==> input == old(input)[buffer.Length - start..]
    {
      var need := buffer.Length - start;
      if |input| < need {
        input := [];
        return false;
      }
      forall i | start <= i < buffer.Length {
        buffer[i] := input[i - start];
      }
      input := input[need..];
      return true;
    }

    method ReadFrame(maximum: nat) returns (r: ReadOutcome)
      modifies this
      ensures r == Parse(old(input), maximum)
      ensures r.Frame? ==> input == old(input)[FRAME_HEADER_BYTES + |r.payload|..]
    {
      var header := new Byte[FRAME_HEADER_BYTES](_ => 0);
      var count := ReadOne(header);
      if count == 0 {
        return EndOfStream;
      }
      var filled := ReadExact(header, 1);
      if !filled {
        return Failed(UnexpectedEof);
      }
      assert header[..] == old(input)[..FRAME_HEADER_BYTES];
      assert input == old(input)[FRAME_HEADER_BYTES..];
      var payloadBytes := FromBigEndian(header[..]);
      if payloadBytes > maximum {
        return Failed(PayloadTooLarge(payloadBytes, maximum));
      }
      var payload := new Byte[payloadBytes](_ => 0);
      filled := ReadExact(payload, 0);
      if !filled {
        return Failed(UnexpectedEof);
      }
      assert payload[..] == old(input)[FRAME_HEADER_BYTES..FRAME_HEADER_BYTES + payloadBytes];
      return Frame(payload[..]);
    }
  }

  // ----- reading a whole stream -----

  function PrependFrame(payload: seq<Byte>, rest: (seq<seq<Byte>>, ReadOutcome))
      : (seq<seq<Byte>>, ReadOutcome)
  {
    ([payload] + rest.0, rest.1)
  }

  /** Repeated reads until the stream ends or a frame is refused. */
  function ReadAll(s: seq<Byte>, maximum: nat): (r: (seq<seq<Byte>>, ReadOutcome))
    ensures !r.1.Frame?
    ensures AllSendable(r.0, maximum)
    decreases |s|
  {
    var first := Parse(s, maximum);
    if first.Frame? then
      PrependFrame(first.payload, ReadAll(s[FRAME_HEADER_BYTES + |first.payload|..], maximum))
    else
      ([], first)
  }

  /** The stream position at which frame number `n` begins. */
  function Offset(payloads: seq<seq<Byte>>, n: nat, maximum: nat): nat
    requires n <= |payloads|
    requires AllSendable(payloads, maximum)
  {
    |EncodeAll(payloads[..n], maximum)|
  }

  lemma {:induction false} OffsetStep(payloads: seq<seq<Byte>>, n: nat, maximum: nat)
    requires 0 < n <= |payloads|
    requires AllSendable(payloads, maximum)
    ensures Offset(payloads, n, maximum) == |Encode(payloads[0])| + Offset(payloads[1..], n - 1, maximum)
  {
    assert payloads[..n][1..] == payloads[1..][..n - 1];
  }

  lemma {:induction false} OffsetMonotone(payloads: seq<seq<Byte>>, n: nat, maximum: nat)
    requires n <= |payloads|
    requires AllSendable(payloads, maximum)
    ensures Offset(payloads, n, maximum) <= |EncodeAll(payloads, maximum)|
    decreases |payloads|
  {
    if n > 0 {
      OffsetStep(payloads, n, maximum);
      OffsetMonotone(payloads[1..], n - 1, maximum);
    }
  }

  lemma {:induction false} ParseEncoded(payload: seq<Byte>, rest: seq<Byte>, maximum: nat)
    requires Sendable(payload, maximum)
    ensures Parse(Encode(payload) + rest, maximum) == Frame(payload)
    ensures (Encode(payload) + rest)[|Encode(payload)|..] == rest
  {
    var s := Encode(payload) + rest;
    assert s[..FRAME_HEADER_BYTES] == ToBigEndian(|payload|);
    HeaderRoundTrip(|payload|);
    assert s[FRAME_HEADER_BYTES..FRAME_HEADER_BYTES + |payload|] == payload;
  }

  lemma {:induction false} ParseCutFrame(payload: seq<Byte>, cut: nat, maximum: nat)
    requires Sendable(payload, maximum)
    requires 0 < cut < |Encode(payload)|
    ensures Parse(Encode(payload)[..cut], maximum) == Failed(UnexpectedEof)
  {
    if cut >= FRAME_HEADER_BYTES {
      assert Encode(payload)[..cut][..FRAME_HEADER_BYTES] == ToBigEndian(|payload|);
      HeaderRoundTrip(|payload|);
    }
  }

  lemma {:induction false} ReadAllStep(payload: seq<Byte>, rest: seq<Byte>, maximum: nat)
    requires Sendable(payload, maximum)
    ensures ReadAll(Encode(payload) + rest, maximum)
         == PrependFrame(payload, ReadAll(rest, maximum))
  {
    ParseEncoded(payload, rest, maximum);
  }

  /** Frame `n` is the first one that the first `cut` bytes do not hold whole. */
  predicate CutsInFrame(payloads: seq<seq<Byte>>, cut: nat, n: nat, maximum: nat)
    requires AllSendable(payloads, maximum)
  {
    && n <= |payloads|
    && Offset(payloads, n, maximum) <= cut
    && (n < |payloads| ==> cut < Offset(payloads, n + 1, maximum))
  }

  lemma {:induction false} CutsInLaterFrame(payloads: seq<seq<Byte>>, cut: nat, m: nat, maximum: nat)
    requires AllSendable(payloads, maximum) && payloads != []
    requires |Encode(payloads[0])| <= cut
    requires CutsInFrame(payloads[1..], cut - |Encode(payloads[0])|, m, maximum)
    ensures CutsInFrame(payloads, cut, m + 1, maximum)
    ensures Offset(payloads, m + 1, maximum)
         == |Encode(payloads[0])| + Offset(payloads[1..], m, maximum)
  {
    OffsetStep(payloads, m + 1, maximum);
    if m + 1 < |payloads| {
      OffsetStep(payloads, m + 2, maximum);
    }
  }

  lemma {:induction false} CutInFirstFrame(payloads: seq<seq<Byte>>, cut: nat, maximum: nat)
    requires AllSendable(payloads, maximum) && payloads != []
    requires cut < |Encode(payloads[0])|
    ensures CutsInFrame(payloads, cut, 0, maximum) && Offset(payloads, 0, maximum) == 0
    ensures ReadAll(Encode(payloads[0])[..cut], maximum)
         == ([], if cut == 0 then EndOfStream else Failed(UnexpectedEof))
  {
    OffsetStep(payloads, 1, maximum);
    if cut > 0 {
      ParseCutFrame(payloads[0], cut, maximum);
    }
  }

  lemma {:induction false} ReadAllPastFirst(payloads: seq<seq<Byte>>, cut: nat, maximum: nat)
    requires AllSendable(payloads, maximum) && payloads != []
    requires |Encode(payloads[0])| <= cut <= |EncodeAll(payloads, maximum)|
    ensures cut - |Encode(payloads[0])| <= |EncodeAll(payloads[1..], maximum)|
    ensures ReadAll(EncodeAll(payloads, maximum)[..cut], maximum)
         == PrependFrame(payloads[0],
              ReadAll(EncodeAll(payloads[1..], maximum)[..cut - |Encode(payloads[0])|], maximum))
  {
    hide ToBigEndian, FromBigEndian;
    var first, rest := Encode(payloads[0]), EncodeAll(payloads[1..], maximum);
    assert (first + rest)[..cut] == first + rest[..cut - |first|];
    ReadAllStep(payloads[0], rest[..cut - |first|], maximum);
  }

  /**
   * Cutting the encoding of `payloads` after any number of bytes yields exactly the frames that are
   * complete before the cut, then a clean end at a frame boundary and an error anywhere else.
   */
  lemma {:induction false} CutStreamYieldsPrefix(payloads: seq<seq<Byte>>, cut: nat, maximum: nat)
      returns (n: nat)
    requires AllSendable(payloads, maximum)
    requires cut <= |EncodeAll(payloads, maximum)|
    ensures CutsInFrame(payloads, cut, n, maximum)
    ensures ReadAll(EncodeAll(payloads, maximum)[..cut], maximum)
         == (payloads[..n],
             if cut == Offset(payloads, n, maximum) then EndOfStream else Failed(UnexpectedEof))
    decreases |payloads|
  {
    hide ToBigEndian, FromBigEndian;
    if payloads == [] {
      return 0;
    }
    var first := |Encode(payloads[0])|;
    if cut < first {
      CutInFirstFrame(payloads, cut, maximum);
      assert EncodeAll(payloads, maximum)[..cut] == Encode(payloads[0])[..cut];
      n := 0;
    } else {
      ReadAllPastFirst(payloads, cut, maximum);
      var m := CutStreamYieldsPrefix(payloads[1..], cut - first, maximum);
      CutsInLaterFrame(payloads, cut, m, maximum);
      n := m + 1;
      assert payloads[..n] == [payloads[0]] + payloads[1..][..m];
    }
  }

  /** The uncut stream gives back every payload: reading inverts writing. */
  lemma {:induction false} WholeStreamRoundTrip(payloads: seq<seq<Byte>>, maximum: nat)
    requires AllSendable(payloads, maximum)
    ensures ReadAll(EncodeAll(payloads, maximum), maximum) == (payloads, EndOfStream)
  {
    var whole := EncodeAll(payloads, maximum);
    var n := CutStreamYieldsPrefix(payloads, |whole|, maximum);
    if n < |payloads| {
      OffsetMonotone(payloads, n + 1, maximum);
    }
    assert whole[..|whole|] == whole;
    assert payloads[..|payloads|] == payloads;
  }

  /** Conversely, a stream that reads cleanly to its end is the encoding of what was read. */
  lemma {:induction false} CleanStreamIsAnEncoding(s: seq<Byte>, maximum: nat)
    requires ReadAll(s, maximum).1 == EndOfStream
    ensures s == EncodeAll(ReadAll(s, maximum).0, maximum)
    decreases |s|
  {
    var first := Parse(s, maximum);
    if first.Frame? {
      FrameIsEncoded(s, maximum);
      hide Parse, Encode;
      var size := FRAME_HEADER_BYTES + |first.payload|;
      CleanStreamIsAnEncoding(s[size..], maximum);
      assert ReadAll(s, maximum).0[1..] == ReadAll(s[size..], maximum).0;
    }
  }

  lemma {:induction false} FrameIsEncoded(s: seq<Byte>, maximum: nat)
    requires Parse(s, maximum).Frame?
    ensures var payload := Parse(s, maximum).payload;
            var size := FRAME_HEADER_BYTES + |payload|;
            Sendable(payload, maximum) && size <= |s| && s == Encode(payload) + s[size..]
  {
    var payload := Parse(s, maximum).payload;
    var size := FRAME_HEADER_BYTES + |payload|;
    HeaderUnique(s[..FRAME_HEADER_BYTES]);
    assert s[..size] == Encode(payload);
    assert s == s[..size] + s[size..];
  }
}
