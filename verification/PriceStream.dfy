/**
 * The live price stream: the scan loop of StreamPricing
 * (internal/brokerage/oanda/client.go) feeds an unbuffered channel, the
 * WebSocket loop of handleStreamQuotes (internal/httpapi/stream_handlers.go)
 * drains it, and either side may end at any moment.
 */
module PriceStream {
  import opened Wrappers

  /** A scanned line, after the attempt to decode it. Prices and times that do not parse are None. */
  datatype Line =
    | Empty
    | Unparseable
    | Message(kind: string, instrument: string, time: Option<int>, bids: seq<Option<real>>, asks: seq<Option<real>>)

  datatype Tick = Tick(instrument: string, bid: real, ask: real, time: int)

  /** Go's zero time, in milliseconds like all times here. */
  const ZERO_TIME: int := -62_135_596_800_000

  function OrZero(price: Option<real>): real {
    if price.Some? then price.value else 0.0
  }

  /** A two-sided PRICE message; heartbeats and everything else are skipped. */
  predicate IsPrice(line: Line) {
    line.Message? && line.kind == "PRICE" && line.bids != [] && line.asks != []
  }

  function TickOf(line: Line): Tick
    requires IsPrice(line)
  {
    Tick(line.instrument, OrZero(line.bids[0]), OrZero(line.asks[0]), if line.time.Some? then line.time.value else ZERO_TIME)
  }

  // ---- What a tick says ----

  /** A PRICE message with at least one bid and one ask. */
  predicate TwoSided(line: Line) {
    line.Message? && line.kind == "PRICE" && |line.bids| > 0 && |line.asks| > 0
  }

  /** The tick has the line's instrument and time, its first bid as bid and its first ask as ask; what does not parse is zero. */
  predicate Quotes(tick: Tick, line: Line)
    requires TwoSided(line)
  {
    && tick.instrument == line.instrument
    && (if line.bids[0].Some? then tick.bid == line.bids[0].value else tick.bid == 0.0)
    && (if line.asks[0].Some? then tick.ask == line.asks[0].value else tick.ask == 0.0)
    && (if line.time.Some? then tick.time == line.time.value else tick.time == -62_135_596_800_000)
  }

  /** The ticks are those of the two-sided PRICE lines at these indices, in order, with none left out on the way. */
  ghost predicate Picks(lines: seq<Line>, ticks: seq<Tick>, picks: seq<nat>) {
    && |picks| == |ticks|
    && (forall k :: 0 <= k < |picks| ==> picks[k] < |lines| && TwoSided(lines[picks[k]]) && Quotes(ticks[k], lines[picks[k]]))
    && (forall j, k :: 0 <= j < k < |picks| ==> picks[j] < picks[k])
    && (forall i: nat, k :: 0 <= k < |picks| && i < picks[k] && TwoSided(lines[i]) ==> i in picks)
  }

  /** And none left out at the end either. */
  ghost predicate PicksAll(lines: seq<Line>, ticks: seq<Tick>, picks: seq<nat>) {
    Picks(lines, ticks, picks) && forall i: nat :: i < |lines| && TwoSided(lines[i]) ==> i in picks
  }

  lemma PicksOneMore(lines: seq<Line>, line: Line, ticks: seq<Tick>, tick: Tick, picks: seq<nat>)
    requires PicksAll(lines, ticks, picks) && TwoSided(line) && Quotes(tick, line)
    ensures PicksAll(lines + [line], ticks + [tick], picks + [|lines|])
  {
    var longer, more := lines + [line], picks + [|lines|];
    assert more[|picks|] == |lines|;
    assert forall k :: 0 <= k < |picks| ==> more[k] == picks[k] && longer[picks[k]] == lines[picks[k]];
    forall i: nat | i < |longer| && TwoSided(longer[i])
      ensures i in more
    {
      if i < |lines| {
        assert i in picks;
      }
    }
  }

  lemma PicksSkip(lines: seq<Line>, line: Line, ticks: seq<Tick>, picks: seq<nat>)
    requires PicksAll(lines, ticks, picks) && !TwoSided(line)
    ensures PicksAll(lines + [line], ticks, picks)
  {
    assert forall k :: 0 <= k < |picks| ==> (lines + [line])[picks[k]] == lines[picks[k]];
  }

  lemma {:induction false} ValidTicksPicked(lines: seq<Line>) returns (picks: seq<nat>)
    ensures PicksAll(lines, ValidTicks(lines), picks)
  {
    if lines == [] {
      picks := [];
    } else {
      var init, last := lines[..|lines| - 1], lines[|lines| - 1];
      assert lines == init + [last];
      picks := ValidTicksPicked(init);
      if TwoSided(last) {
        PicksOneMore(init, last, ValidTicks(init), TickOf(last), picks);
        picks := picks + [|init|];
      } else {
        PicksSkip(init, last, ValidTicks(init), picks);
      }
    }
  }

  lemma PicksPrefix(lines: seq<Line>, ticks: seq<Tick>, picks: seq<nat>, n: nat)
    requires Picks(lines, ticks, picks) && n <= |ticks|
    ensures Picks(lines, ticks[..n], picks[..n])
  {
    forall i: nat, k | 0 <= k < n && i < picks[k] && TwoSided(lines[i])
      ensures i in picks[..n]
    {
      var j :| 0 <= j < |picks| && picks[j] == i;
      assert j < k;
      assert picks[..n][j] == i;
    }
  }

  /** The ticks of the valid PRICE lines, in order. */
  function ValidTicks(lines: seq<Line>): seq<Tick> {
    if lines == [] then []
    else ValidTicks(lines[..|lines| - 1])
         + if IsPrice(lines[|lines| - 1]) then [TickOf(lines[|lines| - 1])] else []
  }

  lemma ValidTicksAppend(lines: seq<Line>, line: Line)
    ensures ValidTicks(lines + [line]) == ValidTicks(lines) + if IsPrice(line) then [TickOf(line)] else []
  {
    assert (lines + [line])[..|lines|] == lines;
  }

  // ---- The two loops on their own ----

  function Take<T>(s: seq<T>, n: nat): seq<T> {
    if n <= |s| then s[..n] else s
  }

  /** The decoding of one scanned line, in the order of the checks in the loop. */
  method Decode(line: Line) returns (tick: Option<Tick>)
    ensures tick == if IsPrice(line) then Some(TickOf(line)) else None
    ensures tick.Some? <==> TwoSided(line)
    ensures tick.Some? ==> Quotes(tick.value, line)
  {
    if line.Empty? {
      return None;
    }
    if line.Unparseable? || line.kind != "PRICE" {
      return None;
    }
    if |line.bids| == 0 || |line.asks| == 0 {
      return None;
    }
    return Some(Tick(line.instrument, OrZero(line.bids[0]), OrZero(line.asks[0]),
                     if line.time.Some? then line.time.value else ZERO_TIME));
  }

  /** What is sent of the ticks in these lines, when the context is done as tick number `doneAt` is offered (None: never). */
  function Produced(lines: seq<Line>, doneAt: Option<nat>): seq<Tick> {
    if doneAt.None? then ValidTicks(lines) else Take(ValidTicks(lines), doneAt.value)
  }

  lemma ProducedPicked(lines: seq<Line>, doneAt: Option<nat>)
    ensures exists picks :: Picks(lines, Produced(lines, doneAt), picks)
                            && (doneAt.None? ==> PicksAll(lines, Produced(lines, doneAt), picks))
  {
    var picks := ValidTicksPicked(lines);
    if doneAt.None? {
      assert Picks(lines, Produced(lines, doneAt), picks) && PicksAll(lines, Produced(lines, doneAt), picks);
    } else {
      var n := |Produced(lines, doneAt)|;
      PicksPrefix(lines, ValidTicks(lines), picks, n);
      assert Produced(lines, doneAt) == ValidTicks(lines)[..n];
      assert Picks(lines, Produced(lines, doneAt), picks[..n]);
    }
  }

  /** What is written of these ticks, when write number `failAt` fails (None: none does). */
  function Forwarded(ticks: seq<Tick>, failAt: Option<nat>): seq<Tick> {
    if failAt.None? then ticks else Take(ticks, failAt.value)
  }

  /** The scan loop. */
  method Produce(lines: seq<Line>, doneAt: Option<nat>) returns (sent: seq<Tick>)
    ensures sent == Produced(lines, doneAt)
    ensures exists picks :: Picks(lines, sent, picks) && (doneAt.None? ==> PicksAll(lines, sent, picks))
  {
    ProducedPicked(lines, doneAt);
    sent := [];
    for i := 0 to |lines|
      invariant sent == ValidTicks(lines[..i])
      invariant doneAt.Some? ==> |sent| <= doneAt.value
    {
      var line := lines[i];
      assert lines[..i + 1] == lines[..i] + [line];
      ValidTicksAppend(lines[..i], line);
      var tick := Decode(line);
      if tick.None? {
        continue;
      }
      if doneAt == Some(|sent|) {
        CutShort(lines, i, doneAt.value);
        return;
      }
      sent := sent + [tick.value];
    }
    assert lines[..|lines|] == lines;
  }

  lemma CutShort(lines: seq<Line>, i: nat, n: nat)
    requires i < |lines| && IsPrice(lines[i]) && |ValidTicks(lines[..i])| == n
    ensures ValidTicks(lines[..i]) == Take(ValidTicks(lines), n)
  {
    assert lines[..i + 1] == lines[..i] + [lines[i]];
    ValidTicksAppend(lines[..i], lines[i]);
    ValidTicksPrefix(lines, i + 1);
  }

  lemma {:induction false} ValidTicksPrefix(lines: seq<Line>, n: nat)
    requires n <= |lines|
    ensures ValidTicks(lines[..n]) <= ValidTicks(lines)
  {
    if n == |lines| {
      assert lines[..n] == lines;
    } else {
      ValidTicksPrefix(lines[..|lines| - 1], n);
      assert lines[..|lines| - 1][..n] == lines[..n];
    }
  }

  /** The WebSocket loop. */
  method Forward(ticks: seq<Tick>, failAt: Option<nat>) returns (written: seq<Tick>)
    ensures written == Forwarded(ticks, failAt)
  {
    written := [];
    for i := 0 to |ticks|
      invariant written == ticks[..i]
      invariant failAt.Some? ==> i <= failAt.value
    {
      if failAt == Some(i) {
        return;
      }
      written := written + [ticks[i]];
    }
  }

  // ---- The two loops together ----

  datatype Producer =
    | Scanning
    | Sending(tick: Tick)  // in the select: offering the tick, or noticing that the context is done
    | Stopping             // returned; the deferred calls are still to run
    | Stopped              // channel closed

  datatype Consumer =
    | Receiving
    | Writing(tick: Tick)
    | Gone                 // returned; the deferred cancel has run

  /** `buffered` holds the lines that have arrived and not been scanned, `scanned` those that have. */
  datatype Stream = Stream(scanned: seq<Line>, buffered: seq<Line>, producer: Producer, consumer: Consumer,
                           canceled: bool, sent: seq<Tick>, written: seq<Tick>, closes: nat)

  datatype Step =
    | Arrive(line: Line)
    | Scan
    | ScanEnds     // end of body, a dropped connection, or a read cut short by the cancellation
    | HandOver     // send and receive meet
    | SeeDone
    | Close
    | WriteOk
    | WriteFails
    | SeeClosed
    | Cancel       // the request's own context ends

  predicate Initial(s: Stream) {
    s == Stream([], [], Scanning, Receiving, false, [], [], 0)
  }

  predicate Enabled(s: Stream, step: Step) {
    match step
    case Arrive(_) => !s.canceled && (s.producer.Scanning? || s.producer.Sending?)
    case Scan => s.producer.Scanning? && s.buffered != []
    case ScanEnds => s.producer.Scanning?
    case HandOver => s.producer.Sending? && s.consumer.Receiving?
    case SeeDone => s.producer.Sending? && s.canceled
    case Close => s.producer.Stopping?
    case WriteOk => s.consumer.Writing?
    case WriteFails => s.consumer.Writing?
    case SeeClosed => s.consumer.Receiving? && s.producer.Stopped?
    case Cancel => !s.canceled
  }

  function Apply(s: Stream, step: Step): Stream
    requires Enabled(s, step)
  {
    match step
    case Arrive(line) => s.(buffered := s.buffered + [line])
    case Scan =>
      var line := s.buffered[0];
      s.(scanned := s.scanned + [line], buffered := s.buffered[1..],
         producer := if IsPrice(line) then Sending(TickOf(line)) else Scanning)
    case ScanEnds => s.(producer := Stopping)
    case HandOver => s.(producer := Scanning, consumer := Writing(s.producer.tick), sent := s.sent + [s.producer.tick])
    case SeeDone => s.(producer := Stopping)
    case Close => s.(producer := Stopped, closes := s.closes + 1)
    case WriteOk => s.(consumer := Receiving, written := s.written + [s.consumer.tick])
    case WriteFails => s.(consumer := Gone, canceled := true)
    case SeeClosed => s.(consumer := Gone, canceled := true)
    case Cancel => s.(canceled := true)
  }

  predicate Possible(s: Stream, steps: seq<Step>)
    decreases |steps|
  {
    steps == [] || (Enabled(s, steps[0]) && Possible(Apply(s, steps[0]), steps[1..]))
  }

  function Run(s: Stream, steps: seq<Step>): Stream
    requires Possible(s, steps)
    decreases |steps|
  {
    if steps == [] then s else Run(Apply(s, steps[0]), steps[1..])
  }

  /** What the producer owes: every valid tick scanned has been sent, or is in its hand, or was dropped at the end. */
  predicate ProducerInvariant(s: Stream) {
    var valid := ValidTicks(s.scanned);
    match s.producer
    case Scanning => valid == s.sent
    case Sending(tick) => valid == s.sent + [tick]
    case _ => s.sent <= valid && |valid| <= |s.sent| + (if s.canceled then 1 else 0)
  }

  predicate ConsumerInvariant(s: Stream) {
    match s.consumer
    case Receiving => s.sent == s.written
    case Writing(tick) => s.sent == s.written + [tick]
    case Gone => s.written <= s.sent && |s.sent| <= |s.written| + 1 && s.canceled
  }

  predicate Invariant(s: Stream) {
    && ProducerInvariant(s)
    && ConsumerInvariant(s)
    && s.closes == (if s.producer.Stopped? then 1 else 0)
  }

  lemma StepKeepsInvariant(s: Stream, step: Step)
    requires Invariant(s) && Enabled(s, step)
    ensures Invariant(Apply(s, step))
  {
    if step.Scan? {
      ValidTicksAppend(s.scanned, s.buffered[0]);
    }
  }

  lemma {:induction false} RunKeepsInvariant(s: Stream, steps: seq<Step>)
    requires Invariant(s) && Possible(s, steps)
    ensures Invariant(Run(s, steps))
    decreases |steps|
  {
    if steps != [] {
      StepKeepsInvariant(s, steps[0]);
      RunKeepsInvariant(Apply(s, steps[0]), steps[1..]);
    }
  }

  /**
   * In every run the ticks written to the socket are, in order and each once,
   * a prefix of the valid PRICE lines read, and the producer has sent at most
   * one tick beyond them. Short of a cancellation nothing scanned is dropped.
   */
  lemma WrittenIsPrefixOfRead(start: Stream, steps: seq<Step>)
    requires Initial(start) && Possible(start, steps)
    ensures var s := Run(start, steps);
            && s.written <= s.sent <= ValidTicks(s.scanned)
            && |s.sent| <= |s.written| + 1
            && |ValidTicks(s.scanned)| <= |s.sent| + 1
            && (!s.canceled && s.consumer.Receiving? && !s.producer.Sending? ==> s.written == ValidTicks(s.scanned))
  {
    RunKeepsInvariant(start, steps);
  }

  /**
   * What the browser gets: in every run the ticks written are, in order and
   * each once, those of the two-sided PRICE lines scanned, with none skipped:
   * the line's instrument and time, its first bid as bid, its first ask as ask.
   */
  lemma WrittenQuoteTheLines(start: Stream, steps: seq<Step>) returns (picks: seq<nat>)
    requires Initial(start) && Possible(start, steps)
    ensures Picks(Run(start, steps).scanned, Run(start, steps).written, picks)
  {
    var s := Run(start, steps);
    WrittenIsPrefixOfRead(start, steps);
    var all := ValidTicksPicked(s.scanned);
    PicksPrefix(s.scanned, ValidTicks(s.scanned), all, |s.written|);
    assert s.written == ValidTicks(s.scanned)[..|s.written|];
    picks := all[..|s.written|];
  }

  // ---- The loops on their own and together ----

  /** How many ticks had been sent when the producer noticed that the context was done, if it did. */
  function DoneAt(s: Stream, steps: seq<Step>): Option<nat>
    requires Possible(s, steps)
    decreases |steps|
  {
    if steps == [] then None
    else if steps[0].SeeDone? then Some(|s.sent|)
    else DoneAt(Apply(s, steps[0]), steps[1..])
  }

  /** How many ticks had been written when a write failed, if one did. */
  function FailAt(s: Stream, steps: seq<Step>): Option<nat>
    requires Possible(s, steps)
    decreases |steps|
  {
    if steps == [] then None
    else if steps[0].WriteFails? then Some(|s.written|)
    else FailAt(Apply(s, steps[0]), steps[1..])
  }

  /** The producer has sent what the scan loop sends of the lines scanned; while it offers a tick, that one is still to come. */
  predicate LikeProduce(s: Stream, doneAt: Option<nat>) {
    match s.producer
    case Scanning => doneAt.None? && s.sent == Produced(s.scanned, None)
    case Sending(tick) => doneAt.None? && s.sent + [tick] == Produced(s.scanned, None)
    case _ => s.sent == Produced(s.scanned, doneAt)
  }

  /** The consumer has written what the socket loop writes of the ticks sent; while it writes a tick, that one is still to come. */
  predicate LikeForward(s: Stream, failAt: Option<nat>) {
    match s.consumer
    case Receiving => failAt.None? && s.written == Forwarded(s.sent, None)
    case Writing(tick) => failAt.None? && s.written + [tick] == Forwarded(s.sent, None)
    case Gone => s.written == Forwarded(s.sent, failAt)
  }

  function Or(first: Option<nat>, second: Option<nat>): Option<nat> {
    if first.Some? then first else second
  }

  lemma StepLikeLoops(s: Stream, step: Step, doneAt: Option<nat>, failAt: Option<nat>)
    requires Enabled(s, step) && LikeProduce(s, doneAt) && LikeForward(s, failAt)
    ensures LikeProduce(Apply(s, step), if step.SeeDone? then Some(|s.sent|) else doneAt)
    ensures LikeForward(Apply(s, step), if step.WriteFails? then Some(|s.written|) else failAt)
  {
    if step.Scan? {
      ValidTicksAppend(s.scanned, s.buffered[0]);
    }
  }

  lemma NoMoreAfterReturn(s: Stream, steps: seq<Step>)
    requires Possible(s, steps)
    ensures s.producer.Stopping? || s.producer.Stopped? ==> DoneAt(s, steps).None?
    ensures s.consumer.Gone? ==> FailAt(s, steps).None?
    decreases |steps|
  {
    if steps != [] {
      NoMoreAfterReturn(Apply(s, steps[0]), steps[1..]);
    }
  }

  lemma {:induction false} RunLikeLoops(s: Stream, steps: seq<Step>, doneAt: Option<nat>, failAt: Option<nat>)
    requires Possible(s, steps) && LikeProduce(s, doneAt) && LikeForward(s, failAt)
    ensures LikeProduce(Run(s, steps), Or(DoneAt(s, steps), doneAt))
    ensures LikeForward(Run(s, steps), Or(FailAt(s, steps), failAt))
    decreases |steps|
  {
    if steps != [] {
      var m := Apply(s, steps[0]);
      StepLikeLoops(s, steps[0], doneAt, failAt);
      NoMoreAfterReturn(m, steps[1..]);
      RunLikeLoops(m, steps[1..], if steps[0].SeeDone? then Some(|s.sent|) else doneAt,
                   if steps[0].WriteFails? then Some(|s.written|) else failAt);
    }
  }

  /**
   * In every run each side does what its loop does on its own, cut off where
   * the run cuts it off: the producer at the offer at which it notices that the
   * context is done, the consumer at the write that fails. Nothing else stops
   * either short.
   */
  lemma RunsAreLoops(start: Stream, steps: seq<Step>)
    requires Initial(start) && Possible(start, steps)
    ensures LikeProduce(Run(start, steps), DoneAt(start, steps))
    ensures LikeForward(Run(start, steps), FailAt(start, steps))
  {
    RunLikeLoops(start, steps, None, None);
  }

  /** One line on its way from arrival to the socket. */
  function PassOn(line: Line): seq<Step> {
    [Arrive(line), Scan] + if IsPrice(line) then [HandOver, WriteOk] else []
  }

  function PassAll(lines: seq<Line>): seq<Step> {
    if lines == [] then [] else PassAll(lines[..|lines| - 1]) + PassOn(lines[|lines| - 1])
  }

  lemma {:induction false} RunAppend(s: Stream, first: seq<Step>, second: seq<Step>)
    requires Possible(s, first) && Possible(Run(s, first), second)
    ensures Possible(s, first + second) && Run(s, first + second) == Run(Run(s, first), second)
    decreases |first|
  {
    if first == [] {
      assert first + second == second;
    } else {
      assert (first + second)[0] == first[0] && (first + second)[1..] == first[1..] + second;
      RunAppend(Apply(s, first[0]), first[1..], second);
    }
  }

  lemma RunStep(s: Stream, step: Step, rest: seq<Step>)
    requires Enabled(s, step) && Possible(Apply(s, step), rest)
    ensures Possible(s, [step] + rest) && Run(s, [step] + rest) == Run(Apply(s, step), rest)
  {
    assert ([step] + rest)[1..] == rest;
  }

  /** Both sides are ready for the next line. */
  function Caught(lines: seq<Line>): Stream {
    Stream(lines, [], Scanning, Receiving, false, ValidTicks(lines), ValidTicks(lines), 0)
  }

  /** The next line has been scanned, and if it is a price it is on offer. */
  function Offered(lines: seq<Line>, line: Line): Stream {
    Caught(lines).(scanned := lines + [line], producer := if IsPrice(line) then Sending(TickOf(line)) else Scanning)
  }

  lemma ScanRuns(lines: seq<Line>, line: Line, rest: seq<Step>)
    requires Possible(Offered(lines, line), rest)
    ensures Possible(Caught(lines), [Arrive(line)] + ([Scan] + rest))
    ensures Run(Caught(lines), [Arrive(line)] + ([Scan] + rest)) == Run(Offered(lines, line), rest)
  {
    var s := Apply(Caught(lines), Arrive(line));
    assert s.buffered == [line] && s.buffered[1..] == [];
    RunStep(s, Scan, rest);
    RunStep(Caught(lines), Arrive(line), [Scan] + rest);
  }

  lemma PassOnRuns(lines: seq<Line>, line: Line)
    ensures Possible(Caught(lines), PassOn(line)) && Run(Caught(lines), PassOn(line)) == Caught(lines + [line])
  {
    var s := Offered(lines, line);
    ValidTicksAppend(lines, line);
    if IsPrice(line) {
      RunStep(Apply(s, HandOver), WriteOk, []);
      RunStep(s, HandOver, [WriteOk]);
      assert PassOn(line) == [Arrive(line)] + ([Scan] + ([HandOver] + [WriteOk]));
      assert [HandOver] + [WriteOk] == [HandOver, WriteOk] && [WriteOk] + [] == [WriteOk];
      ScanRuns(lines, line, [HandOver] + [WriteOk]);
    } else {
      assert ValidTicks(lines) + [] == ValidTicks(lines);
      assert PassOn(line) == [Arrive(line)] + ([Scan] + []);
      ScanRuns(lines, line, []);
    }
  }

  lemma {:induction false} PassAllRuns(start: Stream, lines: seq<Line>)
    requires Initial(start)
    ensures Possible(start, PassAll(lines)) && Run(start, PassAll(lines)) == Caught(lines)
  {
    if lines != [] {
      var before, line := lines[..|lines| - 1], lines[|lines| - 1];
      PassAllRuns(start, before);
      PassOnRuns(before, line);
      RunAppend(start, PassAll(before), PassOn(line));
      assert before + [line] == lines;
    }
  }

  /** Where the n-th valid tick is among the lines. */
  lemma {:induction false} LineOfTick(lines: seq<Line>, n: nat) returns (i: nat)
    requires n < |ValidTicks(lines)|
    ensures i < |lines| && IsPrice(lines[i]) && |ValidTicks(lines[..i])| == n
  {
    var before := lines[..|lines| - 1];
    if n < |ValidTicks(before)| {
      i := LineOfTick(before, n);
      assert lines[..i] == before[..i];
    } else {
      i := |lines| - 1;
    }
  }

  /** The first n valid ticks have gone through and the next one is on offer. */
  lemma UpToTick(start: Stream, lines: seq<Line>, n: nat) returns (steps: seq<Step>, i: nat)
    requires Initial(start) && n < |ValidTicks(lines)|
    ensures i < |lines| && IsPrice(lines[i]) && Possible(start, steps)
    ensures Run(start, steps) == Offered(lines[..i], lines[i])
    ensures ValidTicks(lines[..i]) == Take(ValidTicks(lines), n)
  {
    i := LineOfTick(lines, n);
    CutShort(lines, i, n);
    PassAllRuns(start, lines[..i]);
    ScanRuns(lines[..i], lines[i], []);
    steps := [Arrive(lines[i])] + ([Scan] + []);
    RunAppend(start, PassAll(lines[..i]), steps);
    steps := PassAll(lines[..i]) + steps;
  }

  /**
   * And whatever the loops do on their own, some run does: for all lines and
   * every point at which the context may be done, the producer returns having
   * sent just what the scan loop sends.
   */
  lemma EveryProduceRuns(start: Stream, lines: seq<Line>, doneAt: Option<nat>) returns (steps: seq<Step>)
    requires Initial(start)
    ensures Possible(start, steps)
    ensures var s := Run(start, steps);
            s.producer.Stopping? && s.scanned <= lines && s.sent == Produced(lines, doneAt)
    ensures doneAt.None? || |ValidTicks(lines)| <= doneAt.value ==> Run(start, steps).scanned == lines
    ensures doneAt.Some? && doneAt.value < |ValidTicks(lines)| ==> DoneAtEnd(start, steps, doneAt.value)
  {
    if doneAt.Some? && doneAt.value < |ValidTicks(lines)| {
      var before, i := UpToTick(start, lines, doneAt.value);
      var s := Run(start, before);
      RunStep(Apply(s, Cancel), SeeDone, []);
      RunStep(s, Cancel, [SeeDone]);
      assert [SeeDone] + [] == [SeeDone];
      RunAppend(start, before, [Cancel] + [SeeDone]);
      steps := before + ([Cancel] + [SeeDone]);
      assert steps[|steps| - 1] == SeeDone;
      assert lines[..i] + [lines[i]] == lines[..i + 1];
    } else {
      PassAllRuns(start, lines);
      RunStep(Caught(lines), ScanEnds, []);
      assert [ScanEnds] + [] == [ScanEnds];
      RunAppend(start, PassAll(lines), [ScanEnds]);
      steps := PassAll(lines) + [ScanEnds];
    }
  }

  /** The run ends with the producer noticing, after n ticks, that the context is done. */
  predicate DoneAtEnd(start: Stream, steps: seq<Step>, n: nat)
    requires Possible(start, steps)
  {
    steps != [] && steps[|steps| - 1].SeeDone? && |Run(start, steps).sent| == n
  }

  /** And for all lines and every write that may fail, the consumer has written just what the socket loop writes. */
  lemma EveryForwardRuns(start: Stream, lines: seq<Line>, failAt: Option<nat>) returns (steps: seq<Step>)
    requires Initial(start)
    ensures Possible(start, steps)
    ensures Run(start, steps).written == Forwarded(ValidTicks(lines), failAt)
    ensures if failAt.Some? && failAt.value < |ValidTicks(lines)|
            then Run(start, steps).consumer.Gone? && steps != [] && steps[|steps| - 1].WriteFails?
            else Run(start, steps).consumer.Receiving? && Run(start, steps).sent == ValidTicks(lines)
  {
    if failAt.Some? && failAt.value < |ValidTicks(lines)| {
      var before, i := UpToTick(start, lines, failAt.value);
      var s := Run(start, before);
      RunStep(Apply(s, HandOver), WriteFails, []);
      RunStep(s, HandOver, [WriteFails]);
      assert [WriteFails] + [] == [WriteFails];
      RunAppend(start, before, [HandOver] + [WriteFails]);
      steps := before + ([HandOver] + [WriteFails]);
      assert steps[|steps| - 1] == WriteFails;
    } else {
      PassAllRuns(start, lines);
      steps := PassAll(lines);
    }
  }

  /** The lines that arrived over a run. */
  function Arrivals(steps: seq<Step>): seq<Line> {
    if steps == [] then [] else (if steps[0].Arrive? then [steps[0].line] else []) + Arrivals(steps[1..])
  }

  lemma StepKeepsOrder(s: Stream, step: Step)
    requires Enabled(s, step)
    ensures var m := Apply(s, step);
            m.scanned + m.buffered == s.scanned + s.buffered + if step.Arrive? then [step.line] else []
  {
    if step.Scan? {
      assert s.buffered == [s.buffered[0]] + s.buffered[1..];
    }
  }

  /** The lines are scanned in the order in which they arrive. */
  lemma {:induction false} ScannedInOrder(s: Stream, steps: seq<Step>)
    requires Possible(s, steps)
    ensures Run(s, steps).scanned + Run(s, steps).buffered == s.scanned + s.buffered + Arrivals(steps)
    decreases |steps|
  {
    if steps != [] {
      StepKeepsOrder(s, steps[0]);
      ScannedInOrder(Apply(s, steps[0]), steps[1..]);
    }
  }

  // ---- Shutting down ----

  /** Once the context is done, every step of either side brings the end nearer. */
  function StepsLeft(s: Stream): nat {
    4 * |s.buffered|
    + (match s.producer case Scanning => 2 case Sending(_) => 4 case Stopping => 1 case Stopped => 0)
    + (match s.consumer case Receiving => 1 case Writing(_) => 2 case Gone => 0)
  }

  /** After a cancellation every run, under every schedule, is at most StepsLeft long, and stays canceled. */
  lemma {:induction false} ShutdownIsBounded(s: Stream, steps: seq<Step>)
    requires s.canceled && Possible(s, steps)
    ensures |steps| <= StepsLeft(s) && Run(s, steps).canceled
    decreases |steps|
  {
    if steps != [] {
      var m := Apply(s, steps[0]);
      assert StepsLeft(m) < StepsLeft(s);
      ShutdownIsBounded(m, steps[1..]);
    }
  }

  /** And it never gets stuck: nothing more can happen only when both sides have returned. */
  lemma NothingLeftIffBothDone(s: Stream)
    requires s.canceled
    ensures (forall step :: !Enabled(s, step)) <==> s.producer.Stopped? && s.consumer.Gone?
  {
    if forall step :: !Enabled(s, step) {
      assert !Enabled(s, ScanEnds) && !Enabled(s, SeeDone) && !Enabled(s, Close);
      assert !Enabled(s, WriteOk) && !Enabled(s, SeeClosed);
    }
  }

  /** A producer whose consumer has left can always act on its own: it never blocks on a send. */
  lemma NeverBlocksOnSend(start: Stream, steps: seq<Step>)
    requires Initial(start) && Possible(start, steps)
    requires Run(start, steps).consumer.Gone? && Run(start, steps).producer.Sending?
    ensures Enabled(Run(start, steps), SeeDone) && !Enabled(Run(start, steps), HandOver)
    ensures Apply(Run(start, steps), SeeDone).producer.Stopping?
  {
    RunKeepsInvariant(start, steps);
  }

  /** Once the channel is closed nothing is sent any more and it is not closed again. */
  lemma {:induction false} ClosedForGood(s: Stream, steps: seq<Step>)
    requires Possible(s, steps) && s.producer.Stopped?
    ensures var e := Run(s, steps);
            e.producer.Stopped? && e.sent == s.sent && e.closes == s.closes && e.scanned == s.scanned
    decreases |steps|
  {
    if steps != [] {
      ClosedForGood(Apply(s, steps[0]), steps[1..]);
    }
  }

  /**
   * From every reachable state in which the consumer has left: the producer
   * stops within StepsLeft steps, a run that can go no further has closed the
   * channel exactly once, and no tick is sent on the way.
   */
  lemma ProducerStopsAfterConsumerLeaves(start: Stream, before: seq<Step>, after: seq<Step>)
    requires Initial(start) && Possible(start, before) && Possible(Run(start, before), after)
    requires Run(start, before).consumer.Gone?
    ensures var s, e := Run(start, before), Run(Run(start, before), after);
            && |after| <= StepsLeft(s)
            && e.sent == s.sent
            && ((forall step :: !Enabled(e, step)) ==> e.producer.Stopped? && e.closes == 1)
  {
    var s := Run(start, before);
    RunKeepsInvariant(start, before);
    ShutdownIsBounded(s, after);
    RunKeepsInvariant(s, after);
    NothingLeftIffBothDone(Run(s, after));
    NothingSentWithoutConsumer(s, after);
  }

  lemma {:induction false} NothingSentWithoutConsumer(s: Stream, steps: seq<Step>)
    requires Possible(s, steps) && s.consumer.Gone?
    ensures Run(s, steps).sent == s.sent && Run(s, steps).consumer.Gone?
    decreases |steps|
  {
    if steps != [] {
      NothingSentWithoutConsumer(Apply(s, steps[0]), steps[1..]);
    }
  }
}
