/**
 * How a byte stream is cut into messages.  `Parse` is the reference: a recursive parser over a whole byte
 * string.  The in-place loop of the server connection is proved against it elsewhere; this module shows that
 * it is the right reference: it loses no byte, it undoes the concatenation of messages, and its result for a
 * stream does not depend on where the stream was interrupted.
 */
module Framing {
  import opened Common

  /**
   * What the source leaves to constants and helpers of the message format: the header length, the position a
   * message has to reach beyond, and the length a complete header announces.
   */
  datatype Protocol = Protocol(headerSize: positive32, returnCodePos: nat, lengthOf: seq<byte> -> nat) {

    /** The announced length, or 0 while the header is incomplete. */
    function MessageSize(s: seq<byte>): nat {
      if |s| < headerSize then 0 else lengthOf(s[..headerSize])
    }

    /** `s` begins with a message that is there in full. */
    predicate HasFullMessage(s: seq<byte>) {
      returnCodePos < MessageSize(s) <= |s|
    }

    predicate Oversize(s: seq<byte>) {
      MessageSize(s) > MESSAGE_SIZE_UNLIMITED
    }

    /** `m` is exactly one message. */
    predicate IsMessage(m: seq<byte>) {
      returnCodePos < MessageSize(m) == |m| <= MESSAGE_SIZE_UNLIMITED
    }

    /** A complete header whose announced length is already there but too small to ever be delivered. */
    predicate Stuck(s: seq<byte>) {
      headerSize <= |s| && MessageSize(s) <= returnCodePos && MessageSize(s) <= |s|
    }

    /** The bytes that the current header, or the message it announces, still lacks. */
    function Need(s: seq<byte>): nat {
      if MessageSize(s) > |s| then MessageSize(s) - |s|
      else if headerSize > |s| then headerSize - |s|
      else 0
    }
  }

  datatype Parsed = Parsed(frames: seq<seq<byte>>, rest: seq<byte>, oversize: bool)

  /** Cuts messages off the front until the rest is incomplete, undeliverable or oversize. */
  function Parse(p: Protocol, s: seq<byte>): Parsed
    decreases |s|
  {
    if p.Oversize(s) then Parsed([], s, true)
    else if p.HasFullMessage(s) then
      var n := p.MessageSize(s);
      var tail := Parse(p, s[n..]);
      Parsed([s[..n]] + tail.frames, tail.rest, tail.oversize)
    else Parsed([], s, false)
  }

  function Flatten(chunks: seq<seq<byte>>): seq<byte> {
    if chunks == [] then [] else chunks[0] + Flatten(chunks[1..])
  }

  lemma ConcatAssociative<T>(x: seq<T>, y: seq<T>, z: seq<T>)
    ensures x + (y + z) == (x + y) + z
  {
  }

  lemma {:induction false} FlattenAppend(a: seq<seq<byte>>, b: seq<seq<byte>>)
    ensures Flatten(a + b) == Flatten(a) + Flatten(b)
  {
    if a == [] {
      assert a + b == b;
    } else {
      FlattenAppend(a[1..], b);
      assert (a + b)[1..] == a[1..] + b && (a + b)[0] == a[0];
      ConcatAssociative(a[0], Flatten(a[1..]), Flatten(b));
    }
  }

  lemma FlattenSnoc(a: seq<seq<byte>>, c: seq<byte>)
    ensures Flatten(a + [c]) == Flatten(a) + c
  {
    FlattenAppend(a, [c]);
    assert Flatten([c]) == c;
  }

  /** A header that is complete announces the same length whatever follows. */
  lemma SizeIsStable(p: Protocol, s: seq<byte>, t: seq<byte>)
    requires p.headerSize <= |s|
    ensures p.MessageSize(s + t) == p.MessageSize(s)
  {
    assert (s + t)[..p.headerSize] == s[..p.headerSize];
  }

  /** Byte conservation: the messages followed by the rest are the input. */
  lemma {:induction false} ParseConserves(p: Protocol, s: seq<byte>)
    ensures Flatten(Parse(p, s).frames) + Parse(p, s).rest == s
    decreases |s|
  {
    if p.Oversize(s) || !p.HasFullMessage(s) {
    } else {
      var n := p.MessageSize(s);
      ParseConserves(p, s[n..]);
      assert Parse(p, s).frames[1..] == Parse(p, s[n..]).frames;
    }
  }

  /** A frame cut off the front announces its own length, as long as it spans its header. */
  lemma FrontIsMessage(p: Protocol, s: seq<byte>)
    requires !p.Oversize(s) && p.HasFullMessage(s)
    ensures p.headerSize <= |s|
    ensures p.headerSize <= p.MessageSize(s) ==> p.IsMessage(s[..p.MessageSize(s)])
  {
    var n := p.MessageSize(s);
    if p.headerSize <= n {
      assert s[..n][..p.headerSize] == s[..p.headerSize];
    }
  }

  /**
   * Everything delivered has a deliverable length and, when it spans a header, is a message; the parser stops
   * only where no deliverable message begins, and reports an oversize announcement exactly when it stops at one.
   */
  lemma {:induction false} ParseSound(p: Protocol, s: seq<byte>)
    ensures forall m <- Parse(p, s).frames ::
              p.returnCodePos < |m| <= MESSAGE_SIZE_UNLIMITED && (p.headerSize <= |m| ==> p.IsMessage(m))
    ensures Parse(p, s).oversize <==> p.Oversize(Parse(p, s).rest)
    ensures !Parse(p, s).oversize ==> !p.HasFullMessage(Parse(p, s).rest)
    decreases |s|
  {
    if p.Oversize(s) || !p.HasFullMessage(s) {
    } else {
      FrontIsMessage(p, s);
      ParseSound(p, s[p.MessageSize(s)..]);
    }
  }

  /** A message at the front is cut off as such, whatever follows it. */
  lemma ParseMessage(p: Protocol, m: seq<byte>, t: seq<byte>)
    requires p.IsMessage(m)
    ensures var tail := Parse(p, t);
            Parse(p, m + t) == Parsed([m] + tail.frames, tail.rest, tail.oversize)
  {
    SizeIsStable(p, m, t);
    assert (m + t)[..|m|] == m && (m + t)[|m|..] == t;
  }

  /**
   * Round trip: the parser undoes concatenation.  Whatever messages are sent, followed by any bytes, come out
   * one by one and in order, and parsing goes on with the bytes that follow.
   */
  lemma {:induction false} ParseUndoesFlatten(p: Protocol, ms: seq<seq<byte>>, t: seq<byte>)
    requires forall m <- ms :: p.IsMessage(m)
    ensures var tail := Parse(p, t);
            Parse(p, Flatten(ms) + t) == Parsed(ms + tail.frames, tail.rest, tail.oversize)
  {
    if ms == [] {
      assert Flatten(ms) + t == t;
    } else {
      ParseUndoesFlatten(p, ms[1..], t);
      ConcatAssociative(ms[0], Flatten(ms[1..]), t);
      ParseMessage(p, ms[0], Flatten(ms[1..]) + t);
      ConcatAssociative([ms[0]], ms[1..], Parse(p, t).frames);
      assert [ms[0]] + ms[1..] == ms;
    }
  }

  /** A message that is there in full comes out first, whatever bytes are added behind. */
  lemma ParseFront(p: Protocol, a: seq<byte>, b: seq<byte>)
    requires !p.Oversize(a) && p.HasFullMessage(a)
    ensures var n := p.MessageSize(a);
            var tail := Parse(p, a[n..] + b);
            Parse(p, a + b) == Parsed([a[..n]] + tail.frames, tail.rest, tail.oversize)
  {
    var n := p.MessageSize(a);
    SizeIsStable(p, a, b);
    assert (a + b)[..n] == a[..n] && (a + b)[n..] == a[n..] + b;
  }

  /**
   * The stream may be interrupted anywhere: parsing the first part and then its rest followed by the second
   * part gives the same messages as parsing both parts at once.
   */
  lemma {:induction false} ParseResumes(p: Protocol, a: seq<byte>, b: seq<byte>)
    requires !Parse(p, a).oversize
    ensures var first, second := Parse(p, a), Parse(p, Parse(p, a).rest + b);
            Parse(p, a + b) == Parsed(first.frames + second.frames, second.rest, second.oversize)
    decreases |a|
  {
    if !p.HasFullMessage(a) {
      assert Parse(p, a) == Parsed([], a, false);
    } else {
      var n := p.MessageSize(a);
      ParseFront(p, a, b);
      ParseResumes(p, a[n..], b);
      ConcatAssociative([a[..n]], Parse(p, a[n..]).frames, Parse(p, Parse(p, a).rest + b).frames);
    }
  }

  /** What stops the parser for good stops it whatever follows. */
  lemma {:induction false} ParseStopsForGood(p: Protocol, a: seq<byte>, b: seq<byte>)
    requires Parse(p, a).oversize || p.Stuck(Parse(p, a).rest)
    ensures Parse(p, a + b) == Parse(p, a).(rest := Parse(p, a).rest + b)
    decreases |a|
  {
    if p.headerSize <= |a| {
      SizeIsStable(p, a, b);
    }
    if p.Oversize(a) || !p.HasFullMessage(a) {
    } else {
      ParseFront(p, a, b);
      ParseStopsForGood(p, a[p.MessageSize(a)..], b);
    }
  }

  /** The longest of the given messages. */
  function MaxLength(frames: seq<seq<byte>>): nat {
    if frames == [] then 0 else Max(|frames[0]|, MaxLength(frames[1..]))
  }

  function Max(a: nat, b: nat): nat {
    if a < b then b else a
  }

  lemma {:induction false} MaxLengthAppend(a: seq<seq<byte>>, b: seq<seq<byte>>)
    ensures MaxLength(a + b) == Max(MaxLength(a), MaxLength(b))
  {
    if a == [] {
      assert a + b == b;
    } else {
      MaxLengthAppend(a[1..], b);
      assert (a + b)[1..] == a[1..] + b;
    }
  }

  lemma {:induction false} MaxLengthBound(frames: seq<seq<byte>>, bound: nat)
    requires forall m <- frames :: |m| <= bound
    ensures MaxLength(frames) <= bound
  {
    if frames == [] {
    } else {
      MaxLengthBound(frames[1..], bound);
    }
  }

  /** The largest acceptable length that any header of the stream `s` has announced so far. */
  function LargestAnnounced(p: Protocol, s: seq<byte>): nat {
    var parsed := Parse(p, s);
    Max(MaxLength(parsed.frames), if parsed.oversize then 0 else p.MessageSize(parsed.rest))
  }

  lemma LargestAnnouncedGrows(p: Protocol, a: seq<byte>, b: seq<byte>)
    requires !Parse(p, a).oversize
    ensures LargestAnnounced(p, a) <= LargestAnnounced(p, a + b)
  {
    var rest := Parse(p, a).rest;
    ParseResumes(p, a, b);
    ParseSound(p, a);
    MaxLengthAppend(Parse(p, a).frames, Parse(p, rest + b).frames);
    RestAnnouncementGrows(p, rest, b);
  }

  lemma RestAnnouncementGrows(p: Protocol, rest: seq<byte>, b: seq<byte>)
    requires !p.Oversize(rest) && !p.HasFullMessage(rest)
    ensures p.MessageSize(rest) <= LargestAnnounced(p, rest + b)
  {
    if p.headerSize <= |rest| {
      SizeIsStable(p, rest, b);
    }
  }

  lemma LargestAnnouncedFits(p: Protocol, s: seq<byte>)
    ensures LargestAnnounced(p, s) <= MESSAGE_SIZE_UNLIMITED
  {
    ParseSound(p, s);
    MaxLengthBound(Parse(p, s).frames, MESSAGE_SIZE_UNLIMITED);
  }
}
