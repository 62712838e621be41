/**
 * The receive buffer of a TCP endpoint as a value: which bytes it holds, how large it is, and the window it
 * offers to the next read.  `Arm` is what `receive` does, `Absorb` what the framing loop does, and
 * `Deliveries` a whole run from `start` on.  The classes of the server connection and of the client are
 * proved to follow these functions; the theorems about whole runs are at the end of this module.
 */
module ReceiveWindow {
  import opened Common
  import opened Framing

  datatype Settings = Settings(protocol: Protocol, initial: positive32, threshold: uint32)

  /** The unconsumed bytes, the vector's capacity, and the two counters kept between handlers. */
  datatype Buffer = Buffer(held: seq<byte>, capacity: nat, missing: nat, shrinkCount: uint32)

  // ---------------------------------------------------------------- one handler

  /** One observation of the fill level, made for every message before it is consumed. */
  function Observe(cfg: Settings, capacity: nat, count: uint32, level: nat): uint32 {
    if cfg.threshold == 0 || capacity == cfg.initial then count
    else if level < capacity / 2 then (count + 1) % TWO_TO_THE_32
    else 0
  }

  function CountAfter(cfg: Settings, capacity: nat, count: uint32, levels: seq<nat>): uint32
    decreases |levels|
  {
    if levels == [] then count
    else CountAfter(cfg, capacity, Observe(cfg, capacity, count, levels[0]), levels[1..])
  }

  /** The fill levels at which the messages of `s` are handed over. */
  function Levels(p: Protocol, s: seq<byte>): seq<nat>
    decreases |s|
  {
    if !p.Oversize(s) && p.HasFullMessage(s) then [|s|] + Levels(p, s[p.MessageSize(s)..]) else []
  }

  /** The bytes still missing, as far as the framing loop records them. */
  function MissingAfter(p: Protocol, before: nat, parsed: Parsed): nat {
    if parsed.rest == [] || parsed.oversize then (if parsed.frames == [] then before else 0)
    else if p.Need(parsed.rest) != 0 then p.Need(parsed.rest)
    else if parsed.frames == [] then before
    else 0
  }

  /** The buffer after the bytes `chunk` were read into it and framed. */
  function Absorb(cfg: Settings, b: Buffer, chunk: seq<byte>): Buffer {
    var present := b.held + chunk;
    var parsed := Parse(cfg.protocol, present);
    ParseConserves(cfg.protocol, present);
    var missing := MissingAfter(cfg.protocol, b.missing, parsed);
    var count := CountAfter(cfg, b.capacity, b.shrinkCount, Levels(cfg.protocol, present));
    if parsed.oversize then
      // the early return leaves the rest where it was, behind the consumed messages
      Buffer(present[..|parsed.rest|], b.capacity, missing, count)
    else if parsed.frames != [] && |parsed.rest| + missing <= b.capacity then
      Buffer(parsed.rest, b.capacity, 0, count)
    else
      Buffer(parsed.rest, b.capacity, missing, count)
  }

  /** `receive` gives the idle buffer back its initial size. */
  predicate Shrinks(cfg: Settings, b: Buffer) {
    b.missing == 0 && cfg.threshold != 0 && b.shrinkCount > cfg.threshold && b.held == []
  }

  /** `receive` asks for memory. */
  predicate Allocates(cfg: Settings, b: Buffer) {
    (b.missing != 0 && b.capacity < |b.held| + b.missing) || Shrinks(cfg, b)
  }

  /** The buffer after `receive`, and the size of the window behind the held bytes that is offered. */
  function Arm(cfg: Settings, b: Buffer): (r: (Buffer, nat))
    requires |b.held| <= b.capacity
    ensures r.0.held == b.held && |b.held| + r.1 <= r.0.capacity
  {
    if b.missing != 0 then
      (b.(capacity := Max(b.capacity, |b.held| + b.missing), missing := 0), b.missing)
    else if Shrinks(cfg, b) then
      (b.(capacity := cfg.initial, shrinkCount := 0), cfg.initial)
    else
      (b, b.capacity - |b.held|)
  }

  // ---------------------------------------------------------------- runs

  datatype Observation = Observation(level: nat, capacity: nat)

  /**
   * A connection between two handlers.  `log` holds the observations made since the buffer last shrank; it
   * is bookkeeping that the source does not keep.
   */
  datatype RunState = RunState(buffer: Buffer, window: nat, delivered: seq<seq<byte>>, listening: bool,
                               log: seq<Observation>)

  /** The offered window lies inside the vector, behind the held bytes. */
  type Run = r: RunState | |r.buffer.held| + r.window <= r.buffer.capacity
    witness RunState(Buffer([], 0, 0, 0), 0, [], false, [])

  function Begin(cfg: Settings): Run {
    var armed := Arm(cfg, Buffer([], cfg.initial, 0, 0));
    RunState(armed.0, armed.1, [], true, [])
  }

  function Observations(levels: seq<nat>, capacity: nat): seq<Observation> {
    seq(|levels|, i requires 0 <= i < |levels| => Observation(levels[i], capacity))
  }

  /** A read completes with a non-empty chunk that fits the window it was offered. */
  predicate Accepts(r: Run, chunk: seq<byte>) {
    r.listening && 0 < |chunk| <= r.window
  }

  function LogAfter(cfg: Settings, r: Run, chunk: seq<byte>): seq<Observation> {
    r.log + Observations(Levels(cfg.protocol, r.buffer.held + chunk), r.buffer.capacity)
  }

  function Deliver(cfg: Settings, r: Run, chunk: seq<byte>): Run
    requires Accepts(r, chunk)
  {
    var parsed := Parse(cfg.protocol, r.buffer.held + chunk);
    var absorbed := Absorb(cfg, r.buffer, chunk);
    var log := LogAfter(cfg, r, chunk);
    AbsorbFits(cfg, r.buffer, chunk);
    if parsed.oversize then
      RunState(absorbed, 0, r.delivered + parsed.frames, false, log)
    else
      var armed := Arm(cfg, absorbed);
      RunState(armed.0, armed.1, r.delivered + parsed.frames, true,
               if Shrinks(cfg, absorbed) then [] else log)
  }

  lemma AbsorbFits(cfg: Settings, b: Buffer, chunk: seq<byte>)
    ensures |Absorb(cfg, b, chunk).held| <= |b.held| + |chunk|
  {
    ParseConserves(cfg.protocol, b.held + chunk);
  }

  /** The run over the given reads, or `None` when one of them cannot happen. */
  function Deliveries(cfg: Settings, chunks: seq<seq<byte>>): Option<Run> {
    if chunks == [] then Some(Begin(cfg))
    else
      match Deliveries(cfg, chunks[..|chunks| - 1])
      case None => None
      case Some(r) => if Accepts(r, chunks[|chunks| - 1]) then Some(Deliver(cfg, r, chunks[|chunks| - 1])) else None
  }

  // ---------------------------------------------------------------- the invariant of every run

  predicate Quiet(cfg: Settings, o: Observation) {
    o.capacity != cfg.initial && o.level < o.capacity / 2
  }

  /** How many observations at the end of the log were quiet. */
  function TrailingQuiet(cfg: Settings, log: seq<Observation>): nat {
    if log != [] && Quiet(cfg, log[|log| - 1]) then 1 + TrailingQuiet(cfg, log[..|log| - 1]) else 0
  }

  lemma {:induction false} TrailingQuietMeaning(cfg: Settings, log: seq<Observation>, k: nat)
    requires k <= |log|
    ensures k <= TrailingQuiet(cfg, log) <==> forall i :: |log| - k <= i < |log| ==> Quiet(cfg, log[i])
    ensures TrailingQuiet(cfg, log) <= |log|
  {
    if log == [] {
    } else {
      var front := log[..|log| - 1];
      TrailingQuietMeaning(cfg, front, if k == 0 then 0 else k - 1);
      if k != 0 {
        assert log[|log| - 1] == log[|log| - 1];
        assert forall i :: 0 <= i < |front| ==> front[i] == log[i];
      }
    }
  }

  /** Each message is observed with all bytes present that those before it have left. */
  lemma {:induction false} LevelsAreFillLevels(p: Protocol, s: seq<byte>, i: nat)
    requires i < |Parse(p, s).frames|
    ensures |Levels(p, s)| == |Parse(p, s).frames|
    ensures Levels(p, s)[i] == |s| - |Flatten(Parse(p, s).frames[..i])|
    decreases |s|
  {
    var n, frames := p.MessageSize(s), Parse(p, s).frames;
    var tail := Parse(p, s[n..]).frames;
    assert frames[1..] == tail;
    if i == 0 {
      if tail != [] {
        LevelsAreFillLevels(p, s[n..], 0);
      }
    } else {
      LevelsAreFillLevels(p, s[n..], i - 1);
      assert frames[..i] == [s[..n]] + tail[..i - 1];
    }
  }

  lemma {:induction false} CountFollowsLog(cfg: Settings, capacity: nat, count: uint32, levels: seq<nat>,
                                           log: seq<Observation>)
    requires cfg.threshold != 0 && count == TrailingQuiet(cfg, log) % TWO_TO_THE_32
    requires capacity == cfg.initial ==> count == 0
    ensures CountAfter(cfg, capacity, count, levels)
         == TrailingQuiet(cfg, log + Observations(levels, capacity)) % TWO_TO_THE_32
    ensures capacity == cfg.initial ==> CountAfter(cfg, capacity, count, levels) == 0
    decreases |levels|
  {
    if levels == [] {
      assert log + Observations(levels, capacity) == log;
    } else {
      var log' := log + [Observation(levels[0], capacity)];
      assert log'[..|log'| - 1] == log;
      CountFollowsLog(cfg, capacity, Observe(cfg, capacity, count, levels[0]), levels[1..], log');
      assert log + Observations(levels, capacity) == log' + Observations(levels[1..], capacity);
    }
  }

  lemma {:induction false} CountStays(cfg: Settings, capacity: nat, count: uint32, levels: seq<nat>)
    requires cfg.threshold == 0 || capacity == cfg.initial
    ensures CountAfter(cfg, capacity, count, levels) == count
  {
    if levels == [] {
    } else {
      CountStays(cfg, capacity, count, levels[1..]);
    }
  }

  /** The window asked for: everything behind the held bytes, or at least what the next message lacks. */
  predicate WindowSuffices(p: Protocol, r: Run) {
    && (r.buffer.held == [] ==> r.window == r.buffer.capacity)
    && (r.buffer.held != [] ==> r.window >= p.Need(r.buffer.held))
    && (r.buffer.held != [] && p.Need(r.buffer.held) == 0 ==> r.window == r.buffer.capacity - |r.buffer.held|)
  }

  /** The counter is in step with the log. */
  predicate CountsLog(cfg: Settings, b: Buffer, log: seq<Observation>) {
    && (b.capacity == cfg.initial ==> b.shrinkCount == 0)
    && b.shrinkCount == (if cfg.threshold == 0 then 0 else TrailingQuiet(cfg, log) % TWO_TO_THE_32)
  }

  /** `r` agrees with what parsing its stream gave, and with the largest length announced in it. */
  predicate Agrees(cfg: Settings, r: Run, parsed: Parsed, largest: nat) {
    && r.delivered == parsed.frames
    && r.listening == !parsed.oversize
    && (r.listening ==> r.buffer.held == parsed.rest && r.buffer.missing == 0 && WindowSuffices(cfg.protocol, r))
    && cfg.initial <= r.buffer.capacity <= Max(Max(cfg.initial, cfg.protocol.headerSize), largest)
    && CountsLog(cfg, r.buffer, r.log)
  }

  /** What holds after every feasible run that has read the bytes `stream` so far. */
  predicate Inv(cfg: Settings, r: Run, stream: seq<byte>) {
    Agrees(cfg, r, Parse(cfg.protocol, stream), LargestAnnounced(cfg.protocol, stream))
  }

  lemma CountInvariant(cfg: Settings, r: Run, chunk: seq<byte>)
    requires CountsLog(cfg, r.buffer, r.log)
    ensures CountsLog(cfg, Absorb(cfg, r.buffer, chunk), LogAfter(cfg, r, chunk))
  {
    var levels := Levels(cfg.protocol, r.buffer.held + chunk);
    if cfg.threshold == 0 {
      CountStays(cfg, r.buffer.capacity, r.buffer.shrinkCount, levels);
    } else {
      CountFollowsLog(cfg, r.buffer.capacity, r.buffer.shrinkCount, levels, r.log);
    }
  }

  /** The frames, the rest and the largest announcement of the stream so far carry over to a longer stream. */
  lemma DeliverParses(cfg: Settings, r: Run, stream: seq<byte>, chunk: seq<byte>)
    requires Inv(cfg, r, stream) && Accepts(r, chunk)
    ensures var p, now := cfg.protocol, Parse(cfg.protocol, r.buffer.held + chunk);
            && Parse(p, stream + chunk) == Parsed(r.delivered + now.frames, now.rest, now.oversize)
            && LargestAnnounced(p, stream) <= LargestAnnounced(p, stream + chunk)
            && (!now.oversize ==> p.MessageSize(now.rest) <= LargestAnnounced(p, stream + chunk))
  {
    ParseResumes(cfg.protocol, stream, chunk);
    LargestAnnouncedGrows(cfg.protocol, stream, chunk);
  }

  /**
   * What the framing loop leaves for `receive`: the bytes the next message lacks, or 0 if the free tail has
   * room for them anyway, which is what makes clearing `missing_capacity_` after the shift sound.
   */
  predicate NeedRecorded(p: Protocol, b: Buffer) {
    && |b.held| <= b.capacity
    && (b.held == [] ==> b.missing == 0)
    && (b.held != [] ==> b.missing == p.Need(b.held) || (b.missing == 0 && |b.held| + p.Need(b.held) <= b.capacity))
  }

  lemma AbsorbRecordsNeed(cfg: Settings, r: Run, chunk: seq<byte>)
    requires Accepts(r, chunk) && r.buffer.missing == 0
    requires !Parse(cfg.protocol, r.buffer.held + chunk).oversize
    ensures NeedRecorded(cfg.protocol, Absorb(cfg, r.buffer, chunk))
  {
    ParseConserves(cfg.protocol, r.buffer.held + chunk);
    AbsorbFits(cfg, r.buffer, chunk);
  }

  lemma ArmSuffices(cfg: Settings, b: Buffer, delivered: seq<seq<byte>>, log: seq<Observation>)
    requires NeedRecorded(cfg.protocol, b)
    requires cfg.initial <= b.capacity
    requires b.capacity == cfg.initial ==> b.shrinkCount == 0
    ensures var (b', window) := Arm(cfg, b);
            && WindowSuffices(cfg.protocol, RunState(b', window, delivered, true, log))
            && b'.missing == 0
            && cfg.initial <= b'.capacity
            && b'.capacity <= Max(b.capacity, Max(cfg.protocol.headerSize, cfg.protocol.MessageSize(b.held)))
            && (b'.capacity == cfg.initial ==> b'.shrinkCount == 0)
  {
  }

  lemma InvStep(cfg: Settings, r: Run, stream: seq<byte>, chunk: seq<byte>)
    requires Inv(cfg, r, stream) && Accepts(r, chunk)
    ensures Inv(cfg, Deliver(cfg, r, chunk), stream + chunk)
  {
    DeliverParses(cfg, r, stream, chunk);
    AgreesStep(cfg, r, Parse(cfg.protocol, stream), LargestAnnounced(cfg.protocol, stream), chunk,
               LargestAnnounced(cfg.protocol, stream + chunk));
  }

  lemma AgreesStep(cfg: Settings, r: Run, parsed: Parsed, largest: nat, chunk: seq<byte>,
                   largest': nat)
    requires Agrees(cfg, r, parsed, largest) && Accepts(r, chunk) && largest <= largest'
    requires var now := Parse(cfg.protocol, r.buffer.held + chunk);
             !now.oversize ==> cfg.protocol.MessageSize(now.rest) <= largest'
    ensures var now := Parse(cfg.protocol, r.buffer.held + chunk);
            Agrees(cfg, Deliver(cfg, r, chunk), Parsed(r.delivered + now.frames, now.rest, now.oversize), largest')
  {
    CountInvariant(cfg, r, chunk);
    if !Parse(cfg.protocol, r.buffer.held + chunk).oversize {
      ListeningStep(cfg, r, chunk);
    }
  }

  /** The part of the invariant that does not speak of the whole stream. */
  lemma ListeningStep(cfg: Settings, r: Run, chunk: seq<byte>)
    requires Accepts(r, chunk) && r.buffer.missing == 0
    requires !Parse(cfg.protocol, r.buffer.held + chunk).oversize
    requires cfg.initial <= r.buffer.capacity
    requires r.buffer.capacity == cfg.initial ==> Absorb(cfg, r.buffer, chunk).shrinkCount == 0
    ensures var r', absorbed := Deliver(cfg, r, chunk), Absorb(cfg, r.buffer, chunk);
            var parsed := Parse(cfg.protocol, r.buffer.held + chunk);
            && r'.buffer.held == parsed.rest && r'.buffer.missing == 0 && r'.listening
            && r'.delivered == r.delivered + parsed.frames
            && WindowSuffices(cfg.protocol, r')
            && cfg.initial <= r'.buffer.capacity
            && r'.buffer.capacity <= Max(r.buffer.capacity,
                                         Max(cfg.protocol.headerSize, cfg.protocol.MessageSize(parsed.rest)))
            && (r'.buffer.capacity == cfg.initial ==> r'.buffer.shrinkCount == 0)
            && (if Shrinks(cfg, absorbed) then r'.buffer.shrinkCount == 0 && r'.log == []
                else r'.buffer.shrinkCount == absorbed.shrinkCount && r'.log == LogAfter(cfg, r, chunk))
  {
    var b := Absorb(cfg, r.buffer, chunk);
    var parsed := Parse(cfg.protocol, r.buffer.held + chunk);
    AbsorbRecordsNeed(cfg, r, chunk);
    ArmSuffices(cfg, b, r.delivered + parsed.frames, if Shrinks(cfg, b) then [] else LogAfter(cfg, r, chunk));
  }

  lemma InvBegin(cfg: Settings)
    ensures Inv(cfg, Begin(cfg), [])
  {
  }

  lemma Extend(cfg: Settings, chunks: seq<seq<byte>>, chunk: seq<byte>)
    ensures chunks + [chunk] != []
    ensures var r := Deliveries(cfg, chunks);
            Deliveries(cfg, chunks + [chunk]) == if r.Some? && Accepts(r.value, chunk)
                                                 then Some(Deliver(cfg, r.value, chunk)) else None
  {
    assert (chunks + [chunk])[..|chunks + [chunk]| - 1] == chunks;
  }

  /** Every feasible run keeps the invariant. */
  lemma {:induction false} RunInvariant(cfg: Settings, chunks: seq<seq<byte>>)
    requires Deliveries(cfg, chunks).Some?
    ensures Inv(cfg, Deliveries(cfg, chunks).value, Flatten(chunks))
    decreases |chunks|
  {
    if chunks == [] {
      InvBegin(cfg);
    } else {
      var front, last := chunks[..|chunks| - 1], chunks[|chunks| - 1];
      assert chunks == front + [last];
      Extend(cfg, front, last);
      RunInvariant(cfg, front);
      InvStep(cfg, Deliveries(cfg, front).value, Flatten(front), last);
      FlattenSnoc(front, last);
    }
  }

  // ---------------------------------------------------------------- chunking independence

  /**
   * However the network cuts the stream, the messages delivered are those of the parser on the whole stream,
   * and while the connection listens the held bytes are the parser's rest.
   */
  lemma ChunkingIndependence(cfg: Settings, chunks: seq<seq<byte>>)
    requires Deliveries(cfg, chunks).Some?
    ensures var r, parsed := Deliveries(cfg, chunks).value, Parse(cfg.protocol, Flatten(chunks));
            && r.delivered == parsed.frames
            && (r.listening <==> !parsed.oversize)
            && (r.listening ==> r.buffer.held == parsed.rest)
            && (r.listening ==> Flatten(r.delivered) + r.buffer.held == Flatten(chunks))
  {
    RunInvariant(cfg, chunks);
    ParseConserves(cfg.protocol, Flatten(chunks));
  }

  /** A sender's messages arrive complete, once each and in order, whatever the cuts. */
  lemma MessagesArrive(cfg: Settings, messages: seq<seq<byte>>, chunks: seq<seq<byte>>)
    requires forall m <- messages :: cfg.protocol.IsMessage(m)
    requires Flatten(chunks) == Flatten(messages)
    requires Deliveries(cfg, chunks).Some?
    ensures var r := Deliveries(cfg, chunks).value;
            r.delivered == messages && r.buffer.held == [] && r.listening
  {
    ChunkingIndependence(cfg, chunks);
    ParseUndoesFlatten(cfg.protocol, messages, []);
    assert Flatten(messages) + [] == Flatten(messages);
  }

  /**
   * On the way there, with only a part of the sender's bytes read, the messages delivered so far are a prefix
   * of those sent, the connection listens, and its window is not empty: the rest can still arrive.
   */
  lemma MessagesKeepArriving(cfg: Settings, messages: seq<seq<byte>>, chunks: seq<seq<byte>>, ahead: seq<byte>)
    requires forall m <- messages :: cfg.protocol.IsMessage(m)
    requires Flatten(chunks) + ahead == Flatten(messages)
    requires Deliveries(cfg, chunks).Some?
    ensures var r := Deliveries(cfg, chunks).value;
            r.delivered <= messages && r.listening && 0 < r.window
  {
    RunInvariant(cfg, chunks);
    PartOfMessages(cfg.protocol, messages, Flatten(chunks), ahead);
    WindowZeroIff(cfg, Deliveries(cfg, chunks).value, Flatten(chunks));
  }

  lemma PartOfMessages(p: Protocol, messages: seq<seq<byte>>, part: seq<byte>, ahead: seq<byte>)
    requires forall m <- messages :: p.IsMessage(m)
    requires part + ahead == Flatten(messages)
    ensures var parsed := Parse(p, part);
            parsed.frames <= messages && !parsed.oversize && !p.Stuck(parsed.rest)
  {
    ParseUndoesFlatten(p, messages, []);
    assert Flatten(messages) + [] == part + ahead;
    if Parse(p, part).oversize || p.Stuck(Parse(p, part).rest) {
      ParseStopsForGood(p, part, ahead);
      ParseSound(p, part);
      assert false;
    } else {
      ParseResumes(p, part, ahead);
      assert messages + Parse(p, []).frames == messages;
    }
  }

  // ---------------------------------------------------------------- progress

  /** The capacity and the window after a read are fixed by the bytes held before and after it. */
  predicate ExactlyArmed(cfg: Settings, r: Run, r': Run) {
    var held, lacks := r'.buffer.held, cfg.protocol.Need(r'.buffer.held);
    && (held != [] ==> r'.buffer.capacity == Max(r.buffer.capacity, |held| + lacks))
    && (held == [] ==> r'.buffer.capacity == r.buffer.capacity || r'.buffer.capacity == cfg.initial)
    && r'.window == if held != [] && lacks != 0 && (r'.delivered == r.delivered || r.buffer.capacity < |held| + lacks)
                    then lacks
                    else r'.buffer.capacity - |held|
  }

  lemma DeliverArmsExactly(cfg: Settings, r: Run, stream: seq<byte>, chunk: seq<byte>)
    requires Inv(cfg, r, stream) && Accepts(r, chunk) && Deliver(cfg, r, chunk).listening
    ensures ExactlyArmed(cfg, r, Deliver(cfg, r, chunk))
  {
    ParseConserves(cfg.protocol, r.buffer.held + chunk);
    assert r.delivered + [] == r.delivered;
  }

  /**
   * The exact window of every run: exactly the bytes that the current message or its header still lacks, as long
   * as nothing was delivered or they need more room than there was; otherwise the whole free tail.  The vector
   * grows to just what the held and the lacking bytes need.
   */
  lemma WindowIsExact(cfg: Settings, chunks: seq<seq<byte>>, chunk: seq<byte>)
    requires Deliveries(cfg, chunks + [chunk]).Some? && Deliveries(cfg, chunks + [chunk]).value.listening
    ensures Deliveries(cfg, chunks).Some?
    ensures ExactlyArmed(cfg, Deliveries(cfg, chunks).value, Deliveries(cfg, chunks + [chunk]).value)
  {
    Extend(cfg, chunks, chunk);
    RunInvariant(cfg, chunks);
    DeliverArmsExactly(cfg, Deliveries(cfg, chunks).value, Flatten(chunks), chunk);
  }

  /**
   * The window is empty exactly when the vector is full of bytes behind a header whose announced length can
   * never be delivered.
   */
  lemma WindowZeroIff(cfg: Settings, r: Run, stream: seq<byte>)
    requires Inv(cfg, r, stream) && r.listening
    ensures r.window == 0 <==> cfg.protocol.Stuck(r.buffer.held) && |r.buffer.held| == r.buffer.capacity
  {
    ParseSound(cfg.protocol, stream);
  }

  /**
   * Exactly when the second read of a connection asks for memory: when the bytes left by the first one and those
   * that their header or message still lacks do not fit the initial buffer.  It then offers the missing bytes.
   */
  lemma SecondReadAllocatesIff(cfg: Settings, first: seq<byte>)
    requires Accepts(Begin(cfg), first) && !Parse(cfg.protocol, first).oversize
    ensures var rest := Parse(cfg.protocol, first).rest;
            Allocates(cfg, Absorb(cfg, Begin(cfg).buffer, first)) <==>
              rest != [] && cfg.initial < |rest| + cfg.protocol.Need(rest)
    ensures Allocates(cfg, Absorb(cfg, Begin(cfg).buffer, first)) ==>
              Deliver(cfg, Begin(cfg), first).window == cfg.protocol.Need(Parse(cfg.protocol, first).rest)
  {
    assert [] + first == first;
    ParseConserves(cfg.protocol, first);
    CountStays(cfg, cfg.initial, 0, Levels(cfg.protocol, first));
  }

  /** So it does when a header announces more than the initial buffer holds, or does not fit it itself. */
  lemma LongMessageAllocates(cfg: Settings, first: seq<byte>)
    requires 0 < |first| <= cfg.initial
    requires || (|first| == cfg.protocol.headerSize
                 && cfg.initial < cfg.protocol.MessageSize(first) <= MESSAGE_SIZE_UNLIMITED)
             || |first| == cfg.initial < cfg.protocol.headerSize
    ensures Accepts(Begin(cfg), first)
    ensures Allocates(cfg, Absorb(cfg, Begin(cfg).buffer, first))
    ensures Deliver(cfg, Begin(cfg), first).window == cfg.protocol.Need(first)
  {
    assert Parse(cfg.protocol, first) == Parsed([], first, false);
    SecondReadAllocatesIff(cfg, first);
  }

  /** The fourth byte of a header announces the length, and a message has to be longer than its header. */
  const EXAMPLE: Settings := Settings(Protocol(4, 4, (h: seq<byte>) => if |h| == 4 then h[3] as nat else 0), 4, 1000)

  lemma HeaderWaits()
    ensures Accepts(Begin(EXAMPLE), [0, 0, 0, 5])
    ensures Deliver(EXAMPLE, Begin(EXAMPLE), [0, 0, 0, 5])
         == RunState(Buffer([0, 0, 0, 5], 5, 0, 0), 1, [], true, [])
  {
    var header: seq<byte> := [0, 0, 0, 5];
    assert [] + header == header && header[..4] == header;
    assert EXAMPLE.protocol.MessageSize(header) == 5;
    assert Begin(EXAMPLE) == RunState(Buffer([], 4, 0, 0), 4, [], true, []);
    assert Parse(EXAMPLE.protocol, header) == Parsed([], header, false);
    assert Observations([], 4) == [];
  }

  lemma MessageDelivered()
    ensures var r := RunState(Buffer([0, 0, 0, 5], 5, 0, 0), 1, [], true, []);
            var m: seq<byte> := [0, 0, 0, 5, 9];
            && Accepts(r, [9])
            && Deliver(EXAMPLE, r, [9]) == RunState(Buffer([], 5, 0, 0), 5, [m], true, [Observation(5, 5)])
  {
    var r := RunState(Buffer([0, 0, 0, 5], 5, 0, 0), 1, [], true, []);
    var m: seq<byte> := [0, 0, 0, 5, 9];
    var p := EXAMPLE.protocol;
    assert r.buffer.held + [9] == m && m[..4] == [0, 0, 0, 5] && m[5..] == [] && m[..5] == m;
    assert p.MessageSize(m) == 5 && p.MessageSize([]) == 0;
    assert Parse(p, []) == Parsed([], [], false);
    assert Parse(p, m) == Parsed([m], [], false);
    assert Levels(p, []) == [] && Levels(p, m) == [5];
    assert [5][1..] == [];
    assert CountAfter(EXAMPLE, 5, 0, [5]) == 0;
    assert LogAfter(EXAMPLE, r, [9]) == [Observation(5, 5)];
  }

  lemma ShortHeaderFills()
    ensures var m: seq<byte> := [0, 0, 0, 5, 9];
            var r := RunState(Buffer([], 5, 0, 0), 5, [m], true, [Observation(5, 5)]);
            && Accepts(r, [0, 0, 0, 1, 7])
            && var r' := Deliver(EXAMPLE, r, [0, 0, 0, 1, 7]);
            r'.listening && r'.window == 0 && r'.delivered == [m]
  {
    var bad: seq<byte> := [0, 0, 0, 1, 7];
    assert [] + bad == bad && bad[..4] == [0, 0, 0, 1];
    assert EXAMPLE.protocol.MessageSize(bad) == 1;
    assert Parse(EXAMPLE.protocol, bad) == Parsed([], bad, false);
  }

  /**
   * That case arises on a connection that works: it delivers a message, then a header announces fewer bytes than
   * a message has to have, fills the window, and no read can follow.
   */
  lemma StuckExample()
    ensures var chunks: seq<seq<byte>> := [[0, 0, 0, 5], [9], [0, 0, 0, 1, 7]];
            var r := Deliveries(EXAMPLE, chunks);
            && r.Some? && r.value.listening && r.value.delivered == [[0, 0, 0, 5, 9]] && r.value.window == 0
            && forall chunk :: Deliveries(EXAMPLE, chunks + [chunk]) == None
  {
    var m: seq<byte> := [0, 0, 0, 5, 9];
    var r1 := RunState(Buffer([0, 0, 0, 5], 5, 0, 0), 1, [], true, []);
    var r2 := RunState(Buffer([], 5, 0, 0), 5, [m], true, [Observation(5, 5)]);
    HeaderWaits();
    MessageDelivered();
    ShortHeaderFills();
    Extend(EXAMPLE, [], [0, 0, 0, 5]);
    Extend(EXAMPLE, [[0, 0, 0, 5]], [9]);
    Extend(EXAMPLE, [[0, 0, 0, 5], [9]], [0, 0, 0, 1, 7]);
    var chunks: seq<seq<byte>> := [[0, 0, 0, 5], [9], [0, 0, 0, 1, 7]];
    assert [] + [[0, 0, 0, 5]] == [[0, 0, 0, 5]];
    assert [[0, 0, 0, 5], [9]] + [[0, 0, 0, 1, 7]] == chunks;
    forall chunk ensures Deliveries(EXAMPLE, chunks + [chunk]) == None {
      Extend(EXAMPLE, chunks, chunk);
    }
  }

  /** How far the current message is from being complete, in window-filling reads. */
  function Phase(p: Protocol, held: seq<byte>): nat {
    if held == [] then 3 else if |held| < p.headerSize then 2 else 1
  }

  /** A read that fills its window brings the current message one phase closer, or completes it. */
  lemma FillProgress(cfg: Settings, r: Run, stream: seq<byte>, chunk: seq<byte>)
    requires Inv(cfg, r, stream) && Accepts(r, chunk) && |chunk| == r.window
    ensures var p, r' := cfg.protocol, Deliver(cfg, r, chunk);
            || |r'.delivered| > |r.delivered|
            || !r'.listening
            || p.Stuck(r'.buffer.held)
            || Phase(p, r'.buffer.held) < Phase(p, r.buffer.held)
    ensures r.delivered <= Deliver(cfg, r, chunk).delivered
  {
    var p, held := cfg.protocol, r.buffer.held;
    ParseSound(p, stream);
    ParseConserves(p, held + chunk);
    if p.headerSize <= |held| {
      SizeIsStable(p, held, chunk);
    }
  }

  /**
   * Bounded progress: out of three reads in a row that fill their windows, even from an empty buffer smaller
   * than a header, at least one delivers, unless the stream announces a length outside the deliverable range.
   */
  lemma ThreeFullReadsDeliver(cfg: Settings, chunks: seq<seq<byte>>, a: seq<byte>, b: seq<byte>, c: seq<byte>)
    requires Deliveries(cfg, chunks + [a, b, c]).Some?
    requires FillsWindow(cfg, chunks, a) && FillsWindow(cfg, chunks + [a], b) && FillsWindow(cfg, chunks + [a, b], c)
    ensures var before, after := Deliveries(cfg, chunks).value, Deliveries(cfg, chunks + [a, b, c]).value;
            || |after.delivered| > |before.delivered|
            || !after.listening
            || cfg.protocol.Stuck(after.buffer.held)
  {
    var r0 := Deliveries(cfg, chunks).value;
    assert chunks + [a] + [b] == chunks + [a, b] && chunks + [a, b] + [c] == chunks + [a, b, c];
    OneFullRead(cfg, chunks, a, r0);
    OneFullRead(cfg, chunks + [a], b, r0);
    OneFullRead(cfg, chunks + [a, b], c, r0);
  }

  /** A window-filling read of a run loses no delivery, and settles it or brings it one phase closer. */
  lemma OneFullRead(cfg: Settings, chunks: seq<seq<byte>>, a: seq<byte>, before: Run)
    requires FillsWindow(cfg, chunks, a)
    requires |Deliveries(cfg, chunks).value.delivered| >= |before.delivered|
    ensures Deliveries(cfg, chunks + [a]).Some? ==>
              var r, r' := Deliveries(cfg, chunks).value, Deliveries(cfg, chunks + [a]).value;
              && |r'.delivered| >= |r.delivered|
              && (Settled(cfg, before, r) ==> Settled(cfg, before, r'))
              && (Settled(cfg, before, r')
                  || Phase(cfg.protocol, r'.buffer.held) < Phase(cfg.protocol, r.buffer.held) <= 3)
  {
    Extend(cfg, chunks, a);
    if Accepts(Deliveries(cfg, chunks).value, a) {
      RunInvariant(cfg, chunks);
      FullRead(cfg, before, Deliveries(cfg, chunks).value, Flatten(chunks), a);
    }
  }

  /** `r` has delivered more than `before`, or will never deliver again. */
  predicate Settled(cfg: Settings, before: Run, r: Run) {
    |r.delivered| > |before.delivered| || !r.listening || cfg.protocol.Stuck(r.buffer.held)
  }

  lemma FullRead(cfg: Settings, before: Run, r: Run, stream: seq<byte>, chunk: seq<byte>)
    requires Inv(cfg, r, stream) && Accepts(r, chunk) && |chunk| == r.window
    requires |r.delivered| >= |before.delivered|
    ensures var r' := Deliver(cfg, r, chunk);
            && |r'.delivered| >= |r.delivered|
            && (Settled(cfg, before, r) ==> Settled(cfg, before, r'))
            && (Settled(cfg, before, r') || Phase(cfg.protocol, r'.buffer.held) < Phase(cfg.protocol, r.buffer.held))
  {
    FillProgress(cfg, r, stream, chunk);
    if cfg.protocol.Stuck(r.buffer.held) {
      StaysStuck(cfg, r, stream, chunk);
    }
  }

  ghost predicate FillsWindow(cfg: Settings, chunks: seq<seq<byte>>, chunk: seq<byte>) {
    Deliveries(cfg, chunks).Some? && |chunk| == Deliveries(cfg, chunks).value.window
  }

  /** Once stuck, further bytes are read but nothing is delivered any more. */
  lemma StaysStuck(cfg: Settings, r: Run, stream: seq<byte>, chunk: seq<byte>)
    requires Inv(cfg, r, stream) && Accepts(r, chunk) && cfg.protocol.Stuck(r.buffer.held)
    ensures var r' := Deliver(cfg, r, chunk);
            r'.delivered == r.delivered && (r'.listening ==> cfg.protocol.Stuck(r'.buffer.held))
  {
    var p := cfg.protocol;
    ParseSound(p, stream);
    SizeIsStable(p, r.buffer.held, chunk);
  }

  // ---------------------------------------------------------------- capacity

  /** The vector never outgrows its initial size, a header, and the largest length announced so far. */
  lemma CapacityBound(cfg: Settings, chunks: seq<seq<byte>>)
    requires Deliveries(cfg, chunks).Some?
    ensures var b := Deliveries(cfg, chunks).value.buffer;
            && b.capacity <= Max(Max(cfg.initial, cfg.protocol.headerSize),
                                 LargestAnnounced(cfg.protocol, Flatten(chunks)))
            && cfg.initial <= b.capacity <= MESSAGE_SIZE_UNLIMITED
  {
    RunInvariant(cfg, chunks);
    LargestAnnouncedFits(cfg.protocol, Flatten(chunks));
  }

  // ---------------------------------------------------------------- shrinking

  /**
   * The step after which the vector is smaller is exactly the one that leaves no byte unconsumed and finds
   * more quiet observations in a row, modulo the width of the counter, than the threshold.
   */
  lemma ShrinkIff(cfg: Settings, r: Run, stream: seq<byte>, chunk: seq<byte>)
    requires Inv(cfg, r, stream) && Accepts(r, chunk)
    ensures var r' := Deliver(cfg, r, chunk);
            r'.buffer.capacity < r.buffer.capacity <==>
              && r'.listening && r'.buffer.held == []
              && cfg.threshold != 0
              && TrailingQuiet(cfg, LogAfter(cfg, r, chunk)) % TWO_TO_THE_32 > cfg.threshold
  {
    CountInvariant(cfg, r, chunk);
    DeliverParses(cfg, r, stream, chunk);
    ParseConserves(cfg.protocol, r.buffer.held + chunk);
  }

  lemma ShrinkStep(cfg: Settings, r: Run, stream: seq<byte>, chunk: seq<byte>)
    requires Inv(cfg, r, stream) && Accepts(r, chunk)
    requires Deliver(cfg, r, chunk).buffer.capacity < r.buffer.capacity
    ensures var r' := Deliver(cfg, r, chunk);
            r'.buffer.held == [] && r'.buffer.capacity == r'.window == cfg.initial
    ensures var log := LogAfter(cfg, r, chunk);
            && 0 < cfg.threshold < |log|
            && forall i :: |log| - cfg.threshold - 1 <= i < |log| ==> Quiet(cfg, log[i])
  {
    var log := LogAfter(cfg, r, chunk);
    ShrinkIff(cfg, r, stream, chunk);
    TrailingQuietMeaning(cfg, log, 0);
    TrailingQuietMeaning(cfg, log, cfg.threshold + 1);
  }

  /** A vector shrinks, to its initial size, only after more than `threshold` quiet observations in a row. */
  lemma ShrinkHysteresis(cfg: Settings, chunks: seq<seq<byte>>, chunk: seq<byte>)
    requires Deliveries(cfg, chunks).Some? && Accepts(Deliveries(cfg, chunks).value, chunk)
    requires Deliver(cfg, Deliveries(cfg, chunks).value, chunk).buffer.capacity
           < Deliveries(cfg, chunks).value.buffer.capacity
    ensures var r := Deliveries(cfg, chunks).value;
            var r', log := Deliver(cfg, r, chunk), LogAfter(cfg, r, chunk);
            && r'.buffer.held == [] && r'.buffer.capacity == r'.window == cfg.initial
            && 0 < cfg.threshold < |log|
            && forall i :: |log| - cfg.threshold - 1 <= i < |log| ==> Quiet(cfg, log[i])
  {
    RunInvariant(cfg, chunks);
    ShrinkStep(cfg, Deliveries(cfg, chunks).value, Flatten(chunks), chunk);
  }

  /** Conversely the idle buffer does shrink, as long as the log is shorter than the counter is wide. */
  lemma IdleBufferShrinks(cfg: Settings, r: Run, stream: seq<byte>, chunk: seq<byte>)
    requires Inv(cfg, r, stream) && Accepts(r, chunk)
    requires var log := LogAfter(cfg, r, chunk);
             && 0 < cfg.threshold < |log| < TWO_TO_THE_32
             && forall i :: |log| - cfg.threshold - 1 <= i < |log| ==> Quiet(cfg, log[i])
    requires Parse(cfg.protocol, r.buffer.held + chunk).rest == []
    ensures Deliver(cfg, r, chunk).buffer.capacity == cfg.initial < r.buffer.capacity
  {
    var log := LogAfter(cfg, r, chunk);
    QuietRun(cfg, log);
    DrainedStep(cfg, r, chunk);
    ShrinkIff(cfg, r, stream, chunk);
    ShrinkStep(cfg, r, stream, chunk);
  }

  lemma DrainedStep(cfg: Settings, r: Run, chunk: seq<byte>)
    requires Accepts(r, chunk) && Parse(cfg.protocol, r.buffer.held + chunk).rest == []
    ensures Deliver(cfg, r, chunk).listening && Deliver(cfg, r, chunk).buffer.held == []
  {
    ParseSound(cfg.protocol, r.buffer.held + chunk);
  }

  lemma QuietRun(cfg: Settings, log: seq<Observation>)
    requires cfg.threshold < |log| && forall i :: |log| - cfg.threshold - 1 <= i < |log| ==> Quiet(cfg, log[i])
    ensures cfg.threshold < TrailingQuiet(cfg, log) <= |log|
  {
    TrailingQuietMeaning(cfg, log, cfg.threshold + 1);
  }
}
