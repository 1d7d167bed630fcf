/** What the reader of a proxied stream is handed while it streams, told without the reducer's own account of it: one
    event for each event of the server, the deltas that make up each block, and how a stream that fails ends. */
module ReaderView {
  import opened Types
  import opened Proxy
  import opened RoundTrip
  import opened Framing
  import opened ProxyStream
  import opened ProxyGuarantees

  // ----- One event for each -----

  /** Nothing is passed on for an unknown event and for the end of a call where there is none. */
  predicate IsSilent(p: Partial, e: ProxyEvent) {
    e.Unknown? || (e.ToolCallEnd? && !(At(p.content, e.index).Some? && At(p.content, e.index).value.CallSlot?))
  }

  /** What is passed on for an event: its kind, its index and its delta; an end also carries the block that it leaves. */
  predicate Tells(after: Partial, e: ProxyEvent, m: MessageEvent) {
    if e.Start? then m.Begins?
    else if e.TextStart? then m == BlockStarts(TextKind, e.index)
    else if e.ThinkingStart? then m == BlockStarts(ThinkingKind, e.index)
    else if e.ToolCallStart? then m == BlockStarts(CallKind, e.index)
    else if e.TextDelta? then m == BlockGrows(TextKind, e.index, e.delta)
    else if e.ThinkingDelta? then m == BlockGrows(ThinkingKind, e.index, e.delta)
    else if e.ToolCallDelta? then m == BlockGrows(CallKind, e.index, e.delta)
    else if e.Done? || e.Error? then m == Completes(e.reason)
    else if e.Unknown? then false
    else m.BlockEnds? && m.index == e.index && At(after.content, e.index) == Some(m.block)
  }

  /** These are the events passed on for a sequence of events, in order: one for each that is not silent. */
  ghost predicate PassesOn(p: Partial, events: seq<ProxyEvent>, passed: seq<MessageEvent>, parse: Parser)
    requires Fold(p, events, parse).Returned?
  {
    if events == [] then passed == []
    else
      var front, e := events[..|events| - 1], events[|events| - 1];
      if IsSilent(Fold(p, front, parse).value, e) then PassesOn(p, front, passed, parse)
      else
        && passed != []
        && Tells(Fold(p, events, parse).value, e, passed[|passed| - 1])
        && PassesOn(p, front, passed[..|passed| - 1], parse)
  }

  lemma OneForEach(p: Partial, e: ProxyEvent, parse: Parser)
    requires Process(p, e, parse).1.Returned?
    ensures var (p', outcome) := Process(p, e, parse);
            if IsSilent(p, e) then outcome.value.None? else outcome.value.Some? && Tells(p', e, outcome.value.value)
  {
    hide Put, Arguments;
    if Addressed(e) && SlotStep(At(p.content, e.index), e, parse).value.Some? {
      PutChangesOne(p.content, e.index, e.index);
    }
  }

  lemma PassesSnoc(p: Partial, events: seq<ProxyEvent>, e: ProxyEvent, passed: seq<MessageEvent>, parse: Parser)
    requires Fold(p, events + [e], parse).Returned?
    ensures Fold(p, events, parse).Returned? && Process(Fold(p, events, parse).value, e, parse).1.Returned?
    ensures PassesOn(p, events, passed, parse) ==>
              var outcome := Process(Fold(p, events, parse).value, e, parse).1.value;
              PassesOn(p, events + [e], if outcome.None? then passed else passed + [outcome.value], parse)
  {
    hide Process, Tells, IsSilent, Fold;
    FoldSnoc(p, events, e, parse);
    var q := Fold(p, events, parse).value;
    OneForEach(q, e, parse);
    assert (events + [e])[..|events|] == events;
    var outcome := Process(q, e, parse).1.value;
    if outcome.Some? {
      assert (passed + [outcome.value])[..|passed|] == passed;
    }
  }

  /** Handling lines that carry such events passes on just these. */
  lemma {:induction false} HandlingPassesOn(s: Session, lines: seq<string>, decode: Decoder, parse: Parser)
    returns (passed: seq<MessageEvent>)
    requires Decoded(lines, decode).Returned? && !s.done
    requires forall e :: e in Decoded(lines, decode).value ==> !IsFinal(e)
    requires Fold(s.partial, Decoded(lines, decode).value, parse).Returned?
    ensures HandleLines(s, lines, decode, parse).0.queue == s.queue + passed
    ensures PassesOn(s.partial, Decoded(lines, decode).value, passed, parse)
  {
    hide Process, Payload, HandleEvent, Begun, StartEvents, Fold, PassesOn;
    if lines == [] {
      passed := [];
      NothingPassed(s.partial, parse);
      assert s.queue + [] == s.queue;
    } else {
      var front, line := lines[..|lines| - 1], lines[|lines| - 1];
      var events := Decoded(front, decode).value;
      if Payload(line).Some? {
        var e := decode(Payload(line).value).value;
        assert Decoded(lines, decode).value == events + [e];
        assert e in events + [e];
        PassesSnoc(s.partial, events, e, [], parse);
        passed := HandlingPassesOn(s, front, decode, parse);
        PassesSnoc(s.partial, events, e, passed, parse);
        HandlingIsFolding(s, front, decode, parse);
        var s' := HandleLines(s, front, decode, parse).0;
        PushesOutcome(s', e, parse);
        var outcome := Process(s'.partial, e, parse).1.value;
        if outcome.Some? {
          Associate(s.queue, passed, [outcome.value]);
          passed := passed + [outcome.value];
        }
      } else {
        passed := HandlingPassesOn(s, front, decode, parse);
        HandlingIsFolding(s, front, decode, parse);
      }
    }
  }

  lemma NothingPassed(p: Partial, parse: Parser)
    ensures PassesOn(p, [], [], parse)
  {
  }

  lemma PushesOutcome(s: Session, e: ProxyEvent, parse: Parser)
    requires !s.done && Process(s.partial, e, parse).1.Returned?
    ensures var outcome := Process(s.partial, e, parse).1.value;
            HandleEvent(s, e, parse).0.queue == if outcome.None? then s.queue else s.queue + [outcome.value]
  {
    hide Process;
  }

  // ----- What the deltas make up -----

  /** The deltas sent for a block since its last start, joined. */
  function Sent(events: seq<ProxyEvent>, i: nat): string {
    if events == [] then ""
    else SentWith(Sent(events[..|events| - 1], i), events[|events| - 1], i)
  }

  function SentWith(sent: string, e: ProxyEvent, i: nat): string {
    if !IsFor(e, i) then sent
    else if e.TextDelta? || e.ThinkingDelta? || e.ToolCallDelta? then sent + e.delta
    else if e.TextEnd? || e.ThinkingEnd? || e.ToolCallEnd? then sent
    else ""
  }

  /** The same for the deltas that the reader has been handed. */
  function Grown(passed: seq<MessageEvent>, i: nat): string {
    if passed == [] then ""
    else
      var front := passed[..|passed| - 1];
      match passed[|passed| - 1]
      case BlockStarts(_, j) => if j == i then "" else Grown(front, i)
      case BlockGrows(_, j, delta) => if j == i then Grown(front, i) + delta else Grown(front, i)
      case _ => Grown(front, i)
  }

  /** The reader is handed all the deltas of every block. */
  lemma {:induction false} NoDeltaIsLost(
      p: Partial, events: seq<ProxyEvent>, passed: seq<MessageEvent>, parse: Parser, i: nat)
    requires Fold(p, events, parse).Returned? && PassesOn(p, events, passed, parse)
    ensures Grown(passed, i) == Sent(events, i)
  {
    hide Process;
    if events != [] {
      var front, e := events[..|events| - 1], events[|events| - 1];
      if IsSilent(Fold(p, front, parse).value, e) {
        NoDeltaIsLost(p, front, passed, parse, i);
      } else {
        NoDeltaIsLost(p, front, passed[..|passed| - 1], parse, i);
      }
    }
  }

  /** The text of a block, or its thinking, is what has been sent for it. */
  ghost predicate HoldsWhatWasSent(slot: Option<Slot>, sent: string) {
    match slot
    case Some(TextSlot(text, _)) => text == sent
    case Some(ThinkingSlot(thinking, _)) => thinking == sent
    case _ => true
  }

  lemma StepHoldsWhatWasSent(slot: Option<Slot>, events: seq<ProxyEvent>, e: ProxyEvent, parse: Parser, i: nat)
    requires IsFor(e, i) && SlotStep(slot, e, parse).Returned? && HoldsWhatWasSent(slot, Sent(events, i))
    ensures HoldsWhatWasSent(SlotStep(slot, e, parse).value, Sent(events + [e], i))
  {
    hide Arguments;
    assert (events + [e])[..|events|] == events;
  }

  /** In every message under construction that has begun empty. */
  lemma {:induction false} BlocksHoldWhatWasSent(events: seq<ProxyEvent>, parse: Parser, i: nat)
    requires Fold(EMPTY_PARTIAL, events, parse).Returned?
    ensures HoldsWhatWasSent(At(Fold(EMPTY_PARTIAL, events, parse).value.content, i), Sent(events, i))
  {
    hide Process, SlotStep, HoldsWhatWasSent, At, Fold;
    if events == [] {
      NothingHeld(parse, i);
    } else {
      var front, e := events[..|events| - 1], events[|events| - 1];
      assert front + [e] == events;
      FoldSnoc(EMPTY_PARTIAL, front, e, parse);
      BlocksHoldWhatWasSent(front, parse, i);
      var q := Fold(EMPTY_PARTIAL, front, parse).value;
      ProcessIsLocal(q, e, parse, i);
      if IsFor(e, i) {
        StepHoldsWhatWasSent(At(q.content, i), front, e, parse, i);
      }
    }
  }

  lemma NothingHeld(parse: Parser, i: nat)
    ensures HoldsWhatWasSent(At(Fold(EMPTY_PARTIAL, [], parse).value.content, i), Sent([], i))
  {
  }

  lemma {:induction false} SentIsProjected(events: seq<ProxyEvent>, i: nat)
    ensures Sent(events, i) == Sent(Project(events, i), i)
  {
    if events != [] {
      var front, e := events[..|events| - 1], events[|events| - 1];
      SentIsProjected(front, i);
      if IsFor(e, i) {
        assert (Project(front, i) + [e])[..|Project(front, i)|] == Project(front, i);
      } else {
        assert Project(front, i) + [] == Project(front, i);
      }
    }
  }

  lemma SentSnoc(events: seq<ProxyEvent>, e: ProxyEvent, i: nat)
    ensures Sent(events + [e], i) == SentWith(Sent(events, i), e, i)
  {
    assert (events + [e])[..|events|] == events;
  }

  lemma {:induction false} DeltasSend(block: Block, i: nat, pieces: seq<string>)
    ensures Sent([Opening(block, i)] + Deltas(block, i, pieces), i) == Concat(pieces)
  {
    hide Sent;
    var start := [Opening(block, i)];
    if pieces == [] {
      SentSnoc([], start[0], i);
      assert [] + start == start && start + [] == start;
    } else {
      var n := |pieces| - 1;
      DeltasSend(block, i, pieces[..n]);
      SentSnoc(start + Deltas(block, i, pieces[..n]), Delta(block, i, pieces[n]), i);
      Associate(start, Deltas(block, i, pieces[..n]), [Delta(block, i, pieces[n])]);
    }
  }

  lemma BlockSends(block: Block, i: nat, pieces: seq<string>)
    ensures Sent(BlockEvents(block, i, pieces), i) == Concat(pieces)
  {
    hide Sent, Deltas;
    DeltasSend(block, i, pieces);
    SentSnoc([Opening(block, i)] + Deltas(block, i, pieces), Closing(block, i), i);
  }

  // ----- Whole streams -----

  /** A proxied message, however it is cut: the reader is handed one event for each event sent, in order, and the final
      one last; and the deltas it is handed for a block are, joined, its text, its thinking, or the JSON sent for it. */
  lemma ReaderIsHandedTheMessage(
      cuts: seq<string>, message: AssistantMessage, pieces: seq<seq<string>>, decode: Decoder,
      events: seq<ProxyEvent>, parse: Parser, error: bool)
    returns (passed: seq<MessageEvent>)
    requires Carries(Concat(cuts), message, pieces, decode, events)
    ensures WholeStream(Answer(cuts, false, error), decode, parse).queue == passed + [Completes(message.stopReason)]
    ensures Fold(EMPTY_PARTIAL, events, parse).Returned? && PassesOn(EMPTY_PARTIAL, events, passed, parse)
    ensures forall i :: 0 <= i < |pieces| ==> Grown(passed, i) == Concat(pieces[i])
  {
    hide HandleLines, Lines, Concat, ReceivedContent, Begun, StartEvents, Decoded, PassesOn, Grown, Sent, Encodes, Fold;
    ChunksJoin(cuts);
    passed := CarriedIsPassedOn(Lines(Concat(cuts)), message, pieces, decode, events, parse);
    ContentOfEncoded(events, message.content, pieces, parse);
    CarriedMessage(Lines(Concat(cuts)), message, pieces, decode, events, parse);
    forall i | 0 <= i < |pieces| ensures Grown(passed, i) == Concat(pieces[i]) {
      NoDeltaIsLost(EMPTY_PARTIAL, events, passed, parse, i);
      SentIsProjected(events, i);
      ProjectedBlock(events, message.content, pieces, i);
      BlockSends(message.content[i], i, pieces[i]);
    }
  }

  lemma ContentOfEncoded(events: seq<ProxyEvent>, content: seq<Block>, pieces: seq<seq<string>>, parse: Parser)
    requires Encodes(events, content, pieces)
    ensures |pieces| == |content| && Fold(EMPTY_PARTIAL, events, parse).Returned?
    ensures forall e :: e in events ==> !IsFinal(e)
  {
    hide Fold;
    ContentIsRebuilt(events, content, pieces, parse);
  }

  lemma ProjectedBlock(events: seq<ProxyEvent>, content: seq<Block>, pieces: seq<seq<string>>, i: nat)
    requires Encodes(events, content, pieces) && i < |pieces|
    ensures |pieces| == |content| && Project(events, i) == BlockEvents(content[i], i, pieces[i])
  {
    hide Project, BlockEvents;
  }

  lemma CarriedIsPassedOn(
      lines: seq<string>, message: AssistantMessage, pieces: seq<seq<string>>, decode: Decoder, events: seq<ProxyEvent>,
      parse: Parser)
    returns (passed: seq<MessageEvent>)
    requires CarriedBy(lines, message, pieces, decode, events)
    ensures Fold(EMPTY_PARTIAL, events, parse).Returned? && PassesOn(EMPTY_PARTIAL, events, passed, parse)
    ensures HandleLines(NEW_SESSION, lines, decode, parse).0.queue == passed + [Completes(message.stopReason)]
  {
    hide Process, Payload, HandleLines, Decoded, Fold, PassesOn, Encodes;
    var k := LastLine(lines, decode);
    assert (events + [Final(message)])[..|events|] == events;
    ContentOfEncoded(events, message.content, pieces, parse);
    passed := HandlingPassesOn(NEW_SESSION, lines[..k], decode, parse);
    assert [] + passed == passed;
    HandlingIsFolding(NEW_SESSION, lines[..k], decode, parse);
    var s := HandleLines(NEW_SESSION, lines[..k], decode, parse).0;
    HandleSnoc(NEW_SESSION, lines[..k], lines[k], decode, parse);
    FinalEvent(s, message, parse);
    var s' := HandleEvent(s, Final(message), parse).0;
    assert lines[..k] + [lines[k]] == lines[..k + 1];
    HandleConcat(NEW_SESSION, lines[..k + 1], lines[k + 1..], decode, parse);
    assert lines[..k + 1] + lines[k + 1..] == lines;
    NothingCarried(s', lines[k + 1..], decode, parse);
  }

  // ----- Streams that fail -----

  /** The lines carry these events, all of them accepted and none of them final. */
  ghost predicate Underway(lines: seq<string>, decode: Decoder, events: seq<ProxyEvent>, parse: Parser) {
    && Decoded(lines, decode) == Returned(events)
    && (forall e :: e in events ==> !IsFinal(e))
    && Fold(EMPTY_PARTIAL, events, parse).Returned?
  }

  /** The stream has failed: the reader has been handed the events so far and then the completing one, and the result is
      the message so far, marked with the error and with whether the request was aborted. */
  ghost predicate HasFailed(s: Session, passed: seq<MessageEvent>, p: Partial, error: string, aborted: bool) {
    && s.done && s.result == Some(s.partial)
    && s.queue == passed + [Completes(if aborted then Aborted else StopReason.Error)]
    && s.partial == Partial(p.content, p.usage, if aborted then Aborted else StopReason.Error, Some(error))
  }

  /** The error of a stream that fails before its final event: what the lines have come to is handed out with it. */
  lemma FailureIsReported(r: Response, decode: Decoder, events: seq<ProxyEvent>, parse: Parser)
    returns (passed: seq<MessageEvent>)
    requires r.refused.None? && Underway(Lines(TextBefore(r.body)), decode, events, parse) && LateError(r).Some?
    ensures PassesOn(EMPTY_PARTIAL, events, passed, parse)
    ensures HasFailed(WholeStream(r, decode, parse), passed, Fold(EMPTY_PARTIAL, events, parse).value,
                      LateError(r).value, r.abortedAtError)
  {
    hide HandleLines, Lines, TextBefore, Trouble, Decoded, Fold, PassesOn;
    passed := HandlingPassesOn(NEW_SESSION, Lines(TextBefore(r.body)), decode, parse);
    HandlingIsFolding(NEW_SESSION, Lines(TextBefore(r.body)), decode, parse);
    assert [] + passed == passed;
  }

  /** A line that does not decode, or whose event is refused, stops the stream there: nothing behind it is read. */
  lemma BadLineIsReported(
      r: Response, good: seq<string>, line: string, rest: seq<string>, decode: Decoder, events: seq<ProxyEvent>,
      parse: Parser, error: string)
    returns (passed: seq<MessageEvent>)
    requires r.refused.None? && Lines(TextBefore(r.body)) == good + [line] + rest
    requires Underway(good, decode, events, parse) && Payload(line).Some?
    requires match decode(Payload(line).value)
             case Threw(text) => error == text
             case Returned(e) => Process(Fold(EMPTY_PARTIAL, events, parse).value, e, parse).1 == Threw(error)
    ensures PassesOn(EMPTY_PARTIAL, events, passed, parse)
    ensures HasFailed(WholeStream(r, decode, parse), passed, Fold(EMPTY_PARTIAL, events, parse).value, error,
                      r.abortedAtError)
  {
    hide HandleLines, Lines, TextBefore, Trouble, Decoded, Fold, PassesOn, Payload, SlotStep;
    passed := HandlingPassesOn(NEW_SESSION, good, decode, parse);
    HandlingIsFolding(NEW_SESSION, good, decode, parse);
    assert [] + passed == passed;
    HandleSnoc(NEW_SESSION, good, line, decode, parse);
    HandleStops(NEW_SESSION, good + [line], rest, decode, parse);
  }

  /** A request that is turned down. */
  lemma RefusalIsReported(r: Response, decode: Decoder, parse: Parser)
    requires r.refused.Some?
    ensures HasFailed(WholeStream(r, decode, parse), [], Partial([], Usage(0, 0, 0, 0, 0), Stop, None), r.refused.value,
                      r.abortedAtError)
  {
    assert [] + [Completes(if r.abortedAtError then Aborted else StopReason.Error)]
        == [Completes(if r.abortedAtError then Aborted else StopReason.Error)];
  }

  /** Only the first trouble counts, and the text before it. */
  lemma FirstTroubleCounts(cuts: seq<string>, bad: Read, rest: seq<Read>)
    requires bad.Chunk? ==> bad.aborted
    ensures var body := Chunks(cuts) + [bad] + rest;
            && TextBefore(body) == Concat(cuts)
            && Trouble(body) == Some(if bad.ReadFails? then bad.error else "Request aborted by user")
  {
    hide Concat, Trouble, TextBefore;
    ChunksJoin(cuts);
    ReadSnoc(Chunks(cuts), bad);
    TroubleStays(Chunks(cuts) + [bad], rest);
    assert Concat(cuts) + "" == Concat(cuts);
  }

  // ----- Refused events -----

  /** An event is refused exactly if it is a delta for a block of another kind or for none, or the end of a text or of
      thinking where there is none; and the error says which. */
  lemma RefusedExactly(p: Partial, e: ProxyEvent, parse: Parser)
    ensures var outcome := Process(p, e, parse).1;
            var slot := if Addressed(e) then At(p.content, e.index) else None;
            && (outcome == Threw("Received text_delta for non-text content") <==>
                  e.TextDelta? && !(slot.Some? && slot.value.TextSlot?))
            && (outcome == Threw("Received text_end for non-text content") <==>
                  e.TextEnd? && !(slot.Some? && slot.value.TextSlot?))
            && (outcome == Threw("Received thinking_delta for non-thinking content") <==>
                  e.ThinkingDelta? && !(slot.Some? && slot.value.ThinkingSlot?))
            && (outcome == Threw("Received thinking_end for non-thinking content") <==>
                  e.ThinkingEnd? && !(slot.Some? && slot.value.ThinkingSlot?))
            && (outcome == Threw("Received toolcall_delta for non-toolCall content") <==>
                  e.ToolCallDelta? && !(slot.Some? && slot.value.CallSlot?))
            && (outcome.Threw? ==> e.TextDelta? || e.TextEnd? || e.ThinkingDelta? || e.ThinkingEnd? || e.ToolCallDelta?)
            && (outcome.Threw? ==> Process(p, e, parse).0 == p)
  {
    hide Put, Arguments, Announced;
    TextsDiffer();
  }

  lemma TextsDiffer()
    ensures NOT_TEXT_DELTA != NOT_TEXT_END && NOT_TEXT_DELTA != NOT_THINKING_DELTA
    ensures NOT_TEXT_DELTA != NOT_THINKING_END && NOT_TEXT_DELTA != NOT_CALL_DELTA
    ensures NOT_TEXT_END != NOT_THINKING_DELTA && NOT_TEXT_END != NOT_THINKING_END && NOT_TEXT_END != NOT_CALL_DELTA
    ensures NOT_THINKING_DELTA != NOT_THINKING_END && NOT_THINKING_DELTA != NOT_CALL_DELTA
    ensures NOT_THINKING_END != NOT_CALL_DELTA
  {
    assert |NOT_TEXT_DELTA| == 40 && |NOT_TEXT_END| == 38 && |NOT_THINKING_DELTA| == 48;
    assert |NOT_THINKING_END| == 46 && |NOT_CALL_DELTA| == 48;
    assert NOT_THINKING_DELTA[10] != NOT_CALL_DELTA[10];
  }
}
