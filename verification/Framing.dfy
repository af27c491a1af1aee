/** Length-prefixed framing of envelopes over one byte stream. JSON is a parameter: any codec
    that decodes what it encoded. */
module Framing {
  import opened Wrappers
  import Transfer

  type Byte = Transfer.byte

  const MAX_FRAME: nat := 0x10_0000
  const MIN_FRAME: nat := 2

  datatype Codec<!E> = Codec(encode: E -> seq<Byte>, decode: seq<Byte> -> Option<E>)

  // JSON of an object: never shorter than "{}", and read back as it was written.
  ghost predicate Lawful<E(!new)>(c: Codec<E>) {
    forall e: E :: |c.encode(e)| >= MIN_FRAME && c.decode(c.encode(e)) == Some(e)
  }

  datatype ReadError =
    | Truncated                       // the stream ended, or the deadline fired, inside the frame
    | BadLength(len: nat)
    | BadJson(len: nat)
    | Poisoned(cause: ReadError)

  // --- The length prefix ---

  function BigEndian(n: nat): (h: seq<Byte>)
    requires n < 0x1_0000_0000
    ensures |h| == 4
  {
    var a, b, c := n / 0x100, n / 0x100 / 0x100, n / 0x100 / 0x100 / 0x100;
    [c as Byte, (b % 0x100) as Byte, (a % 0x100) as Byte, (n % 0x100) as Byte]
  }

  function FromBigEndian(h: seq<Byte>): (n: nat)
    requires |h| == 4
    ensures n < 0x1_0000_0000
  {
    ((h[0] as nat * 0x100 + h[1] as nat) * 0x100 + h[2] as nat) * 0x100 + h[3] as nat
  }

  lemma PrefixReadsBack(n: nat)
    requires n < 0x1_0000_0000
    ensures FromBigEndian(BigEndian(n)) == n
  {
    var a := n / 0x100;
    var b := a / 0x100;
    assert n == a * 0x100 + n % 0x100 && a == b * 0x100 + a % 0x100;
  }

  /** The prefix is the length in base 256, most significant byte first. */
  lemma PrefixIsBigEndian(n: nat)
    requires n < 0x1_0000_0000
    ensures var h := BigEndian(n);
            n == h[0] as nat * 16_777_216 + h[1] as nat * 65_536 + h[2] as nat * 256 + h[3] as nat
  {
    PrefixReadsBack(n);
  }

  function Frame(body: seq<Byte>): seq<Byte>
    requires |body| < 0x1_0000_0000
  {
    BigEndian(|body|) + body
  }

  // --- Reading ---

  datatype Reader = Reader(rest: seq<Byte>, readErr: Option<ReadError>)
  datatype Outcome<E> = Outcome(result: Result<E, ReadError>, after: Reader)

  function Take(s: seq<Byte>, n: nat): seq<Byte> { if n >= |s| then s else s[..n] }

  // One frame off a stream of which `seen` arrives in time: the result and how many bytes it
  // used up.
  function ReadFrame<E>(c: Codec<E>, seen: seq<Byte>): (Result<E, ReadError>, nat) {
    if |seen| < 4 then (Err(Truncated), |seen|)
    else
      var n := FromBigEndian(seen[..4]);
      if n < MIN_FRAME || n > MAX_FRAME then (Err(BadLength(n)), 4)
      else if |seen| < 4 + n then (Err(Truncated), |seen|)
      else
        match c.decode(seen[4..4 + n])
        case None => (Err(BadJson(n)), 4 + n)
        case Some(e) => (Ok(e), 4 + n)
  }

  lemma ReadFrameUses<E>(c: Codec<E>, seen: seq<Byte>)
    ensures ReadFrame(c, seen).1 <= |seen|
  {}

  // The first failure poisons every later read.
  function ReadNext<E>(c: Codec<E>, r: Reader, arrives: nat): Outcome<E> {
    match r.readErr
    case Some(cause) => Outcome(Err(Poisoned(cause)), r)
    case None =>
      var (result, used) := ReadFrame(c, Take(r.rest, arrives));
      ReadFrameUses(c, Take(r.rest, arrives));
      Outcome(result, Reader(r.rest[used..], match result case Ok(_) => None case Err(e) => Some(e)))
  }

  function ReadAll<E>(c: Codec<E>, r: Reader, arrivals: seq<nat>): seq<Outcome<E>>
    decreases |arrivals|
  {
    if arrivals == [] then []
    else
      var first := ReadNext(c, r, arrivals[0]);
      [first] + ReadAll(c, first.after, arrivals[1..])
  }

  // --- What was written is what is read ---

  predicate Fits<E>(c: Codec<E>, es: seq<E>) {
    forall i | 0 <= i < |es| :: |c.encode(es[i])| <= MAX_FRAME
  }

  function Stream<E>(c: Codec<E>, es: seq<E>): seq<Byte>
    requires Fits(c, es)
  {
    if es == [] then [] else Frame(c.encode(es[0])) + Stream(c, es[1..])
  }

  lemma OneFrameReadsBack<E(!new)>(c: Codec<E>, e: E, tail: seq<Byte>, arrives: nat)
    requires Lawful(c) && |c.encode(e)| <= MAX_FRAME && arrives >= 4 + |c.encode(e)|
    ensures ReadNext(c, Reader(Frame(c.encode(e)) + tail, None), arrives) == Outcome(Ok(e), Reader(tail, None))
  {
    var body := c.encode(e);
    var rest := Frame(body) + tail;
    var seen := Take(rest, arrives);
    assert |Frame(body)| == 4 + |body|;
    assert seen[..4] == BigEndian(|body|);
    PrefixReadsBack(|body|);
    assert seen[4..4 + |body|] == body;
    assert rest[4 + |body|..] == tail;
  }

  /** Reading back any sequence of in-limit frames returns exactly those envelopes, in order,
      and leaves exactly the bytes that follow them. */
  lemma {:induction false} StreamsReadBack<E(!new)>(c: Codec<E>, es: seq<E>, tail: seq<Byte>, arrivals: seq<nat>)
    requires Lawful(c) && Fits(c, es) && |arrivals| == |es|
    requires forall i | 0 <= i < |es| :: arrivals[i] >= 4 + |c.encode(es[i])|
    ensures var out := ReadAll(c, Reader(Stream(c, es) + tail, None), arrivals);
            && |out| == |es|
            && (forall i | 0 <= i < |es| :: out[i].result == Ok(es[i]))
            && (es != [] ==> out[|es| - 1].after == Reader(tail, None))
    decreases |es|
  {
    if es != [] {
      var rest := Stream(c, es[1..]) + tail;
      assert Stream(c, es) + tail == Frame(c.encode(es[0])) + rest;
      OneFrameReadsBack(c, es[0], rest, arrivals[0]);
      StreamsReadBack(c, es[1..], tail, arrivals[1..]);
      if |es| == 1 {
        assert Stream(c, es[1..]) + tail == tail;
      }
    }
  }

  /** A length out of range is refused on the header alone: whatever follows it is neither
      looked at nor consumed. */
  lemma BadLengthNeedsOnlyTheHeader<E>(c: Codec<E>, header: seq<Byte>, body: seq<Byte>, arrives: nat)
    requires |header| == 4 && arrives >= 4
    requires FromBigEndian(header) < 2 || FromBigEndian(header) > 1_048_576
    ensures var len := FromBigEndian(header);
            ReadNext(c, Reader(header + body, None), arrives)
              == Outcome(Err(BadLength(len)), Reader(body, Some(BadLength(len))))
  {
    var seen := Take(header + body, arrives);
    assert seen[..4] == header;
    assert (header + body)[4..] == body;
  }

  /** A length in range is read: the whole body, decoded, or an error that uses up all that arrived. */
  lemma GoodLengthIsRead<E>(c: Codec<E>, header: seq<Byte>, body: seq<Byte>, arrives: nat)
    requires |header| == 4 && 2 <= FromBigEndian(header) <= 1_048_576 && arrives >= 4
    ensures var len := FromBigEndian(header);
            var out := ReadNext(c, Reader(header + body, None), arrives);
            if arrives < 4 + len || |body| < len then
              out == Outcome(Err(Truncated), Reader(body[if arrives - 4 < |body| then arrives - 4 else |body|..], Some(Truncated)))
            else
              match c.decode(body[..len])
              case Some(e) => out == Outcome(Ok(e), Reader(body[len..], None))
              case None => out == Outcome(Err(BadJson(len)), Reader(body[len..], Some(BadJson(len))))
  {
    var len := FromBigEndian(header);
    var rest := header + body;
    var seen := Take(rest, arrives);
    assert seen[..4] == header;
    assert seen == rest[..|seen|];
    if arrives >= 4 + len && |body| >= len {
      assert |seen| >= 4 + len;
      assert seen[4..4 + len] == rest[4..4 + len];
      assert seen[4..4 + len] == body[..len];
      assert rest[4 + len..] == body[len..];
    } else {
      assert |seen| < 4 + len;
      assert rest[|seen|..] == body[|seen| - 4..];
    }
  }

  /** After the first failure every later read fails with the original cause, wrapped once,
      and the stream does not move. */
  lemma {:induction false} PoisonIsPermanent<E>(c: Codec<E>, r: Reader, arrivals: seq<nat>, i: nat, j: nat)
    requires i < j < |ReadAll(c, r, arrivals)| && r.readErr == None
    requires forall k | 0 <= k < i :: ReadAll(c, r, arrivals)[k].result.Ok?
    requires ReadAll(c, r, arrivals)[i].result.Err?
    ensures var out := ReadAll(c, r, arrivals);
            out[j].result == Err(Poisoned(out[i].result.error)) && out[j].after == out[i].after
    decreases i
  {
    var first := ReadNext(c, r, arrivals[0]);
    var rest := ReadAll(c, first.after, arrivals[1..]);
    assert ReadAll(c, r, arrivals)[0] == first;
    if i == 0 {
      PoisonedReads(c, first.after, arrivals[1..], first.result.error, j - 1);
    } else {
      assert forall k | 0 <= k < i - 1 :: rest[k] == ReadAll(c, r, arrivals)[k + 1];
      PoisonIsPermanent(c, first.after, arrivals[1..], i - 1, j - 1);
    }
  }

  lemma {:induction false} PoisonedReads<E>(c: Codec<E>, r: Reader, arrivals: seq<nat>, cause: ReadError, j: nat)
    requires r.readErr == Some(cause) && j < |ReadAll(c, r, arrivals)|
    ensures ReadAll(c, r, arrivals)[j] == Outcome(Err(Poisoned(cause)), r)
  {
    if j > 0 {
      PoisonedReads(c, r, arrivals[1..], cause, j - 1);
    }
  }

  // --- The connection as it is written ---

  datatype WriteError = TooLarge(len: nat) | WireFailed

  class Conn<E(0)> {
    const codec: Codec<E>
    var incoming: seq<Byte>           // bytes the peer sent that no read has used up
    var readErr: Option<ReadError>
    var outgoing: seq<Byte>           // bytes put on the wire

    constructor (codec: Codec<E>, incoming: seq<Byte>)
      ensures this.codec == codec && this.incoming == incoming && readErr == None && outgoing == []
    {
      this.codec, this.incoming, readErr, outgoing := codec, incoming, None, [];
    }

    // Fills the buffer from the stream, or uses up what arrived of it and fails.
    method ReadFull(buf: array<Byte>, arrives: nat) returns (ok: bool)
      modifies this`incoming, buf
      ensures var seen := Take(old(incoming), arrives);
              && ok == (|seen| >= buf.Length)
              && incoming == old(incoming)[if ok then buf.Length else |seen|..]
              && (ok ==> buf[..] == seen[..buf.Length])
    {
      var seen := Take(incoming, arrives);
      if |seen| < buf.Length {
        incoming := incoming[|seen|..];
        return false;
      }
      var i := 0;
      while i < buf.Length
        invariant 0 <= i <= buf.Length && incoming == old(incoming)
        invariant forall k | 0 <= k < i :: buf[k] == seen[k]
      {
        buf[i] := seen[i];
        i := i + 1;
      }
      incoming := incoming[buf.Length..];
      return true;
    }

    method ReadOne(arrives: nat) returns (r: Result<E, ReadError>)
      modifies this`incoming
      ensures var (result, used) := ReadFrame(codec, Take(old(incoming), arrives));
              used <= |old(incoming)| && r == result && incoming == old(incoming)[used..]
    {
      ghost var seen := Take(incoming, arrives);
      var header := new Byte[4];
      var ok := ReadFull(header, arrives);
      if !ok {
        return Err(Truncated);
      }
      assert header[..] == seen[..4];
      var n := FromBigEndian(header[..]);
      if n < MIN_FRAME || n > MAX_FRAME {
        return Err(BadLength(n));
      }
      var buf := new Byte[n];
      var left := if arrives >= 4 then arrives - 4 else 0;
      assert Take(incoming, left) == seen[4..];
      ok := ReadFull(buf, left);
      if !ok {
        return Err(Truncated);
      }
      assert buf[..] == seen[4..4 + n];
      match codec.decode(buf[..])
      case None => return Err(BadJson(n));
      case Some(e) => return Ok(e);
    }

    method ReadEnvelope(arrives: nat) returns (r: Result<E, ReadError>)
      modifies this`incoming, this`readErr
      ensures Outcome(r, Reader(incoming, readErr))
                == ReadNext(codec, Reader(old(incoming), old(readErr)), arrives)
    {
      if readErr.Some? {
        return Err(Poisoned(readErr.value));
      }
      r := ReadOne(arrives);
      if r.Err? {
        readErr := Some(r.error);
      }
    }

    // One buffer, one write, of which the wire takes `taken` bytes; an envelope over the limit
    // never touches the wire.
    method WriteEnvelope(e: E, taken: nat) returns (r: Option<WriteError>)
      modifies this`outgoing
      ensures var body := codec.encode(e);
              if |body| > MAX_FRAME then r == Some(TooLarge(|body|)) && outgoing == old(outgoing)
              else
                && r == (if taken < |Frame(body)| then Some(WireFailed) else None)
                && outgoing == old(outgoing) + Take(Frame(body), taken)
    {
      var body := codec.encode(e);
      if |body| > MAX_FRAME {
        return Some(TooLarge(|body|));
      }
      var buf := new Byte[4 + |body|];
      var prefix := BigEndian(|body|);
      buf[0], buf[1], buf[2], buf[3] := prefix[0], prefix[1], prefix[2], prefix[3];
      var i := 0;
      while i < |body|
        invariant 0 <= i <= |body| && outgoing == old(outgoing)
        invariant buf[..4] == prefix
        invariant forall k | 0 <= k < i :: buf[4 + k] == body[k]
      {
        buf[4 + i] := body[i];
        i := i + 1;
      }
      assert buf[..] == Frame(body);
      outgoing := outgoing + Take(buf[..], taken);
      return if taken < buf.Length then Some(WireFailed) else None;
    }
  }
}
