/** What the reader of a proxied stream gets, for every way the response is cut into chunks. */
module ProxyGuarantees {
  import opened Types
  import opened Streaming
  import opened Proxy
  import opened RoundTrip
  import opened Framing
  import opened ProxyStream

  // ----- Chunks -----

  function Chunks(cuts: seq<string>): seq<Read> {
    if cuts == [] then [] else Chunks(cuts[..|cuts| - 1]) + [Chunk(cuts[|cuts| - 1], false)]
  }

  lemma {:induction false} ChunksJoin(cuts: seq<string>)
    ensures Trouble(Chunks(cuts)).None? && TextBefore(Chunks(cuts)) == Concat(cuts)
  {
    hide Trouble, TextBefore, Concat;
    if cuts == [] {
      NoChunks();
    } else {
      var front, text := cuts[..|cuts| - 1], cuts[|cuts| - 1];
      ChunksJoin(front);
      ReadSnoc(Chunks(front), Chunk(text, false));
      ConcatSnoc(front, text);
      assert front + [text] == cuts;
    }
  }

  lemma NoChunks()
    ensures Trouble([]).None? && TextBefore([]) == "" && Concat([]) == ""
  {
  }

  lemma ConcatSnoc(pieces: seq<string>, piece: string)
    ensures Concat(pieces + [piece]) == Concat(pieces) + piece
  {
    assert (pieces + [piece])[..|pieces|] == pieces;
  }

  /** A response that is answered and read to its end. */
  function Answer(cuts: seq<string>, abortedAtEnd: bool, abortedAtError: bool): Response {
    Response(None, Chunks(cuts), abortedAtEnd, abortedAtError)
  }

  /** The reader gets the same, however the text is cut, also if something in it is refused. */
  lemma ChunkingIsIrrelevant(a: seq<string>, b: seq<string>, decode: Decoder, parse: Parser, end: bool, error: bool)
    requires Concat(a) == Concat(b)
    ensures WholeStream(Answer(a, end, error), decode, parse) == WholeStream(Answer(b, end, error), decode, parse)
  {
    hide HandleLines, Lines, Concat;
    ChunksJoin(a);
    ChunksJoin(b);
  }

  /** What follows the last line feed is never read. */
  lemma TailIsNeverRead(cuts: seq<string>, tail: string, decode: Decoder, parse: Parser, end: bool, error: bool)
    requires '\n' !in tail
    ensures WholeStream(Answer(cuts + [tail], end, error), decode, parse)
         == WholeStream(Answer(cuts, end, error), decode, parse)
  {
    hide HandleLines, Concat, Lines, Tail;
    ChunksJoin(cuts);
    ChunksJoin(cuts + [tail]);
    ConcatSnoc(cuts, tail);
    LinesOfConcat(Concat(cuts), tail);
    LinesMakeUpText(Concat(cuts));
    NoLineFeed(Tail(Concat(cuts)) + tail);
    assert Lines(Concat(cuts)) + [] == Lines(Concat(cuts));
  }

  lemma NoLineFeed(text: string)
    requires '\n' !in text
    ensures Lines(text) == []
  {
    LinesAreUnique([], text);
    assert Unlines([]) + text == text;
  }

  // ----- The message -----

  /** The events that the lines carry, in order; lines that carry none are skipped. */
  function Decoded(lines: seq<string>, decode: Decoder): Attempt<seq<ProxyEvent>> {
    if lines == [] then Returned([])
    else
      match Decoded(lines[..|lines| - 1], decode)
      case Threw(error) => Threw(error)
      case Returned(events) =>
        match Payload(lines[|lines| - 1])
        case None => Returned(events)
        case Some(payload) =>
          match decode(payload)
          case Threw(error) => Threw(error)
          case Returned(e) => Returned(events + [e])
  }

  function StartEvents(events: seq<ProxyEvent>): nat {
    if events == [] then 0 else StartEvents(events[..|events| - 1]) + if events[|events| - 1].Start? then 1 else 0
  }

  function Begun(queue: seq<MessageEvent>): nat {
    if queue == [] then 0 else Begun(queue[..|queue| - 1]) + if queue[|queue| - 1].Begins? then 1 else 0
  }

  predicate Open(queue: seq<MessageEvent>) {
    forall k :: 0 <= k < |queue| ==> !queue[k].Completes?
  }

  /** The completing event is the last one. */
  predicate EndsOnce(queue: seq<MessageEvent>) {
    queue != [] && Open(queue[..|queue| - 1]) && queue[|queue| - 1].Completes?
  }

  lemma QueueSnoc(queue: seq<MessageEvent>, e: MessageEvent)
    ensures Begun(queue + [e]) == Begun(queue) + if e.Begins? then 1 else 0
    ensures Open(queue + [e]) <==> Open(queue) && !e.Completes?
    ensures e.Completes? && Open(queue) ==> EndsOnce(queue + [e])
  {
    assert (queue + [e])[..|queue|] == queue;
    assert (queue + [e])[|queue|] == e;
    assert forall k :: 0 <= k < |queue| ==> queue[k] == (queue + [e])[k];
  }

  lemma NoneBegun()
    ensures Begun([]) == 0
  {
  }

  predicate IsFinal(e: ProxyEvent) {
    e.Done? || e.Error?
  }

  /** Handling the lines is folding their events, as long as none of them is final. */
  lemma {:induction false} HandlingIsFolding(s: Session, lines: seq<string>, decode: Decoder, parse: Parser)
    requires Decoded(lines, decode).Returned? && !s.done
    requires forall e :: e in Decoded(lines, decode).value ==> !IsFinal(e)
    requires Fold(s.partial, Decoded(lines, decode).value, parse).Returned?
    ensures var (s', error) := HandleLines(s, lines, decode, parse);
            && error == None && !s'.done && s'.result == s.result
            && s'.partial == Fold(s.partial, Decoded(lines, decode).value, parse).value
            && Begun(s'.queue) == Begun(s.queue) + StartEvents(Decoded(lines, decode).value)
            && (Open(s.queue) ==> Open(s'.queue))
  {
    hide Process, Payload, HandleEvent, Open, Begun;
    if lines != [] {
      var front, line := lines[..|lines| - 1], lines[|lines| - 1];
      var events := Decoded(front, decode).value;
      if Payload(line).Some? {
        var e := decode(Payload(line).value).value;
        assert Decoded(lines, decode).value == events + [e];
        assert e in events + [e];
        FoldSnoc(s.partial, events, e, parse);
        HandlingIsFolding(s, front, decode, parse);
        OneMore(HandleLines(s, front, decode, parse).0, e, parse);
      } else {
        HandlingIsFolding(s, front, decode, parse);
      }
    }
  }

  lemma OneMore(s: Session, e: ProxyEvent, parse: Parser)
    requires !s.done && !IsFinal(e) && Process(s.partial, e, parse).1.Returned?
    ensures var (s', error) := HandleEvent(s, e, parse);
            && error == None && !s'.done && s'.result == s.result && s'.partial == Process(s.partial, e, parse).0
            && Begun(s'.queue) == Begun(s.queue) + (if e.Start? then 1 else 0)
            && (Open(s.queue) ==> Open(s'.queue))
  {
    hide SlotStep, Begun;
    var outcome := Process(s.partial, e, parse).1.value;
    if outcome.Some? {
      QueueSnoc(s.queue, outcome.value);
    }
  }

  /** The lines before the last one that carries something, that one, and what it carries. */
  lemma {:induction false} LastLine(lines: seq<string>, decode: Decoder) returns (k: nat)
    requires Decoded(lines, decode).Returned? && Decoded(lines, decode).value != []
    ensures var events := Decoded(lines, decode).value;
            && k < |lines|
            && Decoded(lines[..k], decode) == Returned(events[..|events| - 1])
            && Payload(lines[k]).Some? && decode(Payload(lines[k]).value) == Returned(events[|events| - 1])
            && forall i :: k < i < |lines| ==> Payload(lines[i]).None?
  {
    hide Payload;
    var n := |lines| - 1;
    var events := Decoded(lines, decode).value;
    if Payload(lines[n]).Some? {
      k := n;
      assert events[..|events| - 1] == Decoded(lines[..n], decode).value;
    } else {
      k := LastLine(lines[..n], decode);
      assert lines[..n][..k] == lines[..k] && lines[..n][k] == lines[k];
      assert forall i :: k < i < n ==> lines[i] == lines[..n][i];
    }
  }

  lemma {:induction false} NothingCarried(s: Session, lines: seq<string>, decode: Decoder, parse: Parser)
    requires forall i :: 0 <= i < |lines| ==> Payload(lines[i]).None?
    ensures HandleLines(s, lines, decode, parse) == (s, None)
  {
    hide Payload;
    if lines != [] {
      NothingCarried(s, lines[..|lines| - 1], decode, parse);
    }
  }

  /** The lines carry the message, its blocks in the given pieces and any interleaving, and its final event last. */
  ghost predicate CarriedBy(
      lines: seq<string>, message: AssistantMessage, pieces: seq<seq<string>>, decode: Decoder, events: seq<ProxyEvent>)
  {
    && Encodes(events, message.content, pieces)
    && Decoded(lines, decode) == Returned(events + [Final(message)])
  }

  ghost predicate Carries(
      text: string, message: AssistantMessage, pieces: seq<seq<string>>, decode: Decoder, events: seq<ProxyEvent>)
  {
    CarriedBy(Lines(text), message, pieces, decode, events)
  }

  /** What such lines make of a new session. */
  lemma CarriedMessage(
      lines: seq<string>, message: AssistantMessage, pieces: seq<seq<string>>, decode: Decoder, events: seq<ProxyEvent>,
      parse: Parser)
    requires CarriedBy(lines, message, pieces, decode, events)
    ensures var (s, error) := HandleLines(NEW_SESSION, lines, decode, parse);
            var received := ReceivedMessage(message, pieces, parse);
            && error == None && s.partial == received && s.done && s.result == Some(received)
            && EndsOnce(s.queue) && Begun(s.queue) == StartEvents(events)
  {
    hide Process, Payload, HandleLines, Decoded, Fold, ReceivedContent, Begun, StartEvents;
    var k := LastLine(lines, decode);
    assert (events + [Final(message)])[..|events|] == events;
    ContentIsRebuilt(events, message.content, pieces, parse);
    HandlingIsFolding(NEW_SESSION, lines[..k], decode, parse);
    var s := HandleLines(NEW_SESSION, lines[..k], decode, parse).0;
    HandleSnoc(NEW_SESSION, lines[..k], lines[k], decode, parse);
    FinalEvent(s, message, parse);
    QueueSnoc(s.queue, Completes(message.stopReason));
    NoneBegun();
    var s' := HandleEvent(s, Final(message), parse).0;
    assert lines[..k] + [lines[k]] == lines[..k + 1];
    HandleConcat(NEW_SESSION, lines[..k + 1], lines[k + 1..], decode, parse);
    assert lines[..k + 1] + lines[k + 1..] == lines;
    NothingCarried(s', lines[k + 1..], decode, parse);
  }

  lemma FinalEvent(s: Session, message: AssistantMessage, parse: Parser)
    requires !s.done
    ensures var p := s.partial.(stopReason := message.stopReason, usage := message.usage,
                                errorMessage :=
                                  if Failed(message) then message.errorMessage else s.partial.errorMessage);
            HandleEvent(s, Final(message), parse)
            == (Session(p, s.queue + [Completes(message.stopReason)], true, Some(p)), None)
  {
  }

  /** End to end: a response that carries a message gives its reader that message, as far as it can arrive, however
      the message was cut into deltas, its blocks interleaved, and the response cut into chunks. */
  lemma ProxiedMessageIsRebuilt(
      cuts: seq<string>, message: AssistantMessage, pieces: seq<seq<string>>, decode: Decoder,
      events: seq<ProxyEvent>, parse: Parser, error: bool)
    requires Carries(Concat(cuts), message, pieces, decode, events)
    ensures var s := WholeStream(Answer(cuts, false, error), decode, parse);
            && s.result == Some(ReceivedMessage(message, pieces, parse)) && s.partial == s.result.value && s.done
            && EndsOnce(s.queue) && Begun(s.queue) == StartEvents(events)
  {
    hide HandleLines, Lines, Concat, ReceivedContent, CarriedBy, Begun, StartEvents, EndsOnce;
    ChunksJoin(cuts);
    CarriedMessage(Lines(Concat(cuts)), message, pieces, decode, events, parse);
  }

  type Encoder = ProxyEvent -> string

  /** What is assumed of the JSON codec and of the server: an event is written on one line, without blanks around it,
      and read back. */
  ghost predicate Coded(events: seq<ProxyEvent>, encode: Encoder, decode: Decoder) {
    forall e :: e in events ==>
      && '\n' !in encode(e) && encode(e) != "" && Trim(encode(e)) == encode(e)
      && decode(encode(e)) == Returned(e)
  }

  function WireLines(events: seq<ProxyEvent>, encode: Encoder): (lines: seq<string>)
    ensures |lines| == |events| && forall k :: 0 <= k < |lines| ==> lines[k] == PREFIX + encode(events[k])
  {
    if events == [] then []
    else WireLines(events[..|events| - 1], encode) + [PREFIX + encode(events[|events| - 1])]
  }

  lemma {:induction false} WireDecodes(events: seq<ProxyEvent>, encode: Encoder, decode: Decoder)
    requires Coded(events, encode, decode)
    ensures Decoded(WireLines(events, encode), decode) == Returned(events)
  {
    hide Trim;
    if events != [] {
      var front, e := events[..|events| - 1], events[|events| - 1];
      var lines, line := WireLines(front, encode), PREFIX + encode(e);
      WireDecodes(front, encode, decode);
      assert (lines + [line])[..|lines|] == lines;
      assert e in events && line[|PREFIX|..] == encode(e) && line[..|PREFIX|] == PREFIX;
      assert front + [e] == events;
    }
  }

  /** From the server's message to the reader's: write the events of the message, in any interleaving of its blocks, one
      per line, and cut the whole text anywhere. */
  lemma FromServerToReader(
      cuts: seq<string>, message: AssistantMessage, pieces: seq<seq<string>>, encode: Encoder, decode: Decoder,
      events: seq<ProxyEvent>, parse: Parser, error: bool)
    requires Encodes(events, message.content, pieces)
    requires Coded(events + [Final(message)], encode, decode)
    requires Concat(cuts) == Unlines(WireLines(events + [Final(message)], encode))
    ensures var s := WholeStream(Answer(cuts, false, error), decode, parse);
            && s.result == Some(ReceivedMessage(message, pieces, parse)) && s.partial == s.result.value && s.done
            && EndsOnce(s.queue) && Begun(s.queue) == StartEvents(events)
  {
    hide HandleLines, Lines, Tail, Concat, ReceivedContent, Begun, StartEvents, EndsOnce, Decoded, WholeStream, Unlines,
         Encodes;
    var lines := WireLines(events + [Final(message)], encode);
    WireDecodes(events + [Final(message)], encode, decode);
    forall k | 0 <= k < |lines| ensures '\n' !in lines[k] {
      assert (events + [Final(message)])[k] in events + [Final(message)];
    }
    LinesAreUnique(lines, "");
    assert Unlines(lines) + "" == Unlines(lines);
    ProxiedMessageIsRebuilt(cuts, message, pieces, decode, events, parse, error);
  }

  // ----- Behind the final event -----

  /** Whether the stream fails behind its lines, and how: trouble with the connection, or an abort seen at the end. */
  function LateError(r: Response): Option<string> {
    if Trouble(r.body).Some? then Trouble(r.body) else if r.abortedAtEnd then Some(ABORTED) else None
  }

  /** A message on which a failure has left its mark. */
  function Spoiled(p: Partial, error: string, aborted: bool): Partial {
    p.(stopReason := if aborted then Aborted else StopReason.Error, errorMessage := Some(error))
  }

  /** The object handed out is still the message under construction. If the text that arrives carries a message, then the
      reader is handed that message; and what it holds at the end is still that message if and only if neither the
      connection makes trouble nor an abort is seen behind it. A message that has failed itself may be spoiled without a
      trace, by a failure of the same kind and with the same words. */
  lemma LateFailureRewritesTheResult(
      r: Response, message: AssistantMessage, pieces: seq<seq<string>>, decode: Decoder, events: seq<ProxyEvent>,
      parse: Parser)
    requires r.refused.None? && Carries(TextBefore(r.body), message, pieces, decode, events)
    ensures var s, received := WholeStream(r, decode, parse), ReceivedMessage(message, pieces, parse);
            && s.result == Some(received)
            && s.partial == (if LateError(r).None? then received
                             else Spoiled(received, LateError(r).value, r.abortedAtError))
            && (!Failed(message) ==> (s.partial == received <==> Trouble(r.body).None? && !r.abortedAtEnd))
            && (Failed(message) ==>
                  (s.partial == received <==>
                     || (Trouble(r.body).None? && !r.abortedAtEnd)
                     || (message.errorMessage == LateError(r) && (message.stopReason.Aborted? <==> r.abortedAtError))))
  {
    hide HandleLines, Lines, TextBefore, Trouble, ReceivedContent, Encodes, Decoded;
    CarriedMessage(Lines(TextBefore(r.body)), message, pieces, decode, events, parse);
  }

  /** What later lines do to a message that is complete: they are refused, or fold into it. */
  function Afterwards(p: Partial, lines: seq<string>, decode: Decoder, parse: Parser): Attempt<Partial> {
    match Decoded(lines, decode)
    case Threw(error) => Threw(error)
    case Returned(events) => Fold(p, events, parse)
  }

  lemma AfterwardsSnoc(p: Partial, lines: seq<string>, line: string, decode: Decoder, parse: Parser)
    ensures Afterwards(p, lines, decode, parse).Threw? ==> Afterwards(p, lines + [line], decode, parse).Threw?
    ensures Afterwards(p, lines, decode, parse).Returned? ==>
              var q, next := Afterwards(p, lines, decode, parse).value, Afterwards(p, lines + [line], decode, parse);
              match Payload(line)
              case None => next == Returned(q)
              case Some(payload) =>
                match decode(payload)
                case Threw(error) => next.Threw?
                case Returned(e) =>
                  if Process(q, e, parse).1.Threw? then next.Threw? else next == Returned(Process(q, e, parse).0)
  {
    hide Payload, Process;
    assert (lines + [line])[..|lines|] == lines;
    if Decoded(lines, decode).Returned? && Payload(line).Some? && decode(Payload(line).value).Returned? {
      FoldSnoc(p, Decoded(lines, decode).value, decode(Payload(line).value).value, parse);
    }
  }

  /** Lines behind a completing event pass nothing on, but still change the message. */
  lemma {:induction false} LaterLinesChangeTheMessage(s: Session, lines: seq<string>, decode: Decoder, parse: Parser)
    requires s.done
    ensures var (s', error) := HandleLines(s, lines, decode, parse);
            && s'.done && s'.result == s.result && s'.queue == s.queue
            && (error.None? <==> Afterwards(s.partial, lines, decode, parse).Returned?)
            && (error.None? ==> Afterwards(s.partial, lines, decode, parse) == Returned(s'.partial))
  {
    hide HandleLines, HandleLine, Payload, Process, Afterwards;
    if lines == [] {
      NothingHandled(s, decode, parse);
      NothingAfterwards(s.partial, decode, parse);
    } else {
      var front, line := lines[..|lines| - 1], lines[|lines| - 1];
      assert front + [line] == lines;
      LaterLinesChangeTheMessage(s, front, decode, parse);
      HandleSnoc(s, front, line, decode, parse);
      AfterwardsSnoc(s.partial, front, line, decode, parse);
      OneLaterLine(HandleLines(s, front, decode, parse).0, line, decode, parse);
    }
  }

  lemma NothingAfterwards(p: Partial, decode: Decoder, parse: Parser)
    ensures Afterwards(p, [], decode, parse) == Returned(p)
  {
  }

  lemma OneLaterLine(s: Session, line: string, decode: Decoder, parse: Parser)
    requires s.done
    ensures var (s', error) := HandleLine(s, line, decode, parse);
            && s'.done && s'.result == s.result && s'.queue == s.queue
            && match Payload(line)
               case None => error.None? && s'.partial == s.partial
               case Some(payload) =>
                 match decode(payload)
                 case Threw(_) => error.Some?
                 case Returned(e) =>
                   && (error.Some? <==> Process(s.partial, e, parse).1.Threw?)
                   && (error.None? ==> s'.partial == Process(s.partial, e, parse).0)
  {
    hide Payload, SlotStep;
  }

  /** The same for whatever lines come behind those that carry the message: the reader is handed the message, and still
      holds it in the end if and only if all later lines are accepted and together leave it as it is, and nothing fails
      behind them. */
  lemma LaterLinesRewriteTheResult(
      r: Response, first: seq<string>, later: seq<string>, message: AssistantMessage, pieces: seq<seq<string>>,
      decode: Decoder, events: seq<ProxyEvent>, parse: Parser)
    requires r.refused.None? && Lines(TextBefore(r.body)) == first + later && !Failed(message)
    requires CarriedBy(first, message, pieces, decode, events)
    ensures var s, received := WholeStream(r, decode, parse), ReceivedMessage(message, pieces, parse);
            && s.result == Some(received)
            && (s.partial == received <==>
                  && Afterwards(received, later, decode, parse) == Returned(received)
                  && Trouble(r.body).None? && !r.abortedAtEnd)
  {
    hide HandleLines, Lines, TextBefore, Trouble, ReceivedContent, Encodes, Decoded, Afterwards;
    var s := HandleLines(NEW_SESSION, first, decode, parse).0;
    CarriedMessage(first, message, pieces, decode, events, parse);
    HandleConcat(NEW_SESSION, first, later, decode, parse);
    LaterLinesChangeTheMessage(s, later, decode, parse);
  }

  /** The events that a message takes without changing: the ones that touch no block, empty deltas and ends with the same
      signature for a block of their kind, the end of a call that has ended (or of anything but a call), starts for a
      block that is as good as new, and final events that say the same again. */
  predicate LeavesAsIs(p: Partial, e: ProxyEvent, parse: Parser) {
    match e
    case Start => true
    case Unknown => true
    case Done(reason, usage) => reason == p.stopReason && usage == p.usage
    case Error(reason, message, usage) => reason == p.stopReason && message == p.errorMessage && usage == p.usage
    case TextStart(i) => At(p.content, i) == Some(TextSlot("", None))
    case ThinkingStart(i) => At(p.content, i) == Some(ThinkingSlot("", None))
    case ToolCallStart(i, id, name) => At(p.content, i) == Some(CallSlot(id, name, EMPTY_OBJECT, Some("")))
    case TextDelta(i, delta) => delta == "" && At(p.content, i).Some? && At(p.content, i).value.TextSlot?
    case ThinkingDelta(i, delta) => delta == "" && At(p.content, i).Some? && At(p.content, i).value.ThinkingSlot?
    case ToolCallDelta(i, delta) =>
      && delta == ""
      && (match At(p.content, i)
          case Some(CallSlot(_, _, arguments, Some(json))) => arguments == Parsed(parse, json)
          case _ => false)
    case TextEnd(i, signature) =>
      (match At(p.content, i)
       case Some(TextSlot(_, before)) => before == signature
       case _ => false)
    case ThinkingEnd(i, signature) =>
      (match At(p.content, i)
       case Some(ThinkingSlot(_, before)) => before == signature
       case _ => false)
    case ToolCallEnd(i) =>
      (match At(p.content, i)
       case Some(CallSlot(_, _, _, json)) => json.None?
       case _ => true)
  }

  /** An event is accepted and changes nothing exactly if it is one of them. */
  lemma OnlyTheseLeaveAsIs(p: Partial, e: ProxyEvent, parse: Parser)
    ensures LeavesAsIs(p, e, parse) <==> Process(p, e, parse).0 == p && Process(p, e, parse).1.Returned?
  {
    hide Put;
    if Addressed(e) {
      match SlotStep(At(p.content, e.index), e, parse) {
        case Returned(Some(slot)) => PutLeavesAsIs(p.content, e.index, slot);
        case _ =>
      }
      NothingAppended(At(p.content, e.index), e);
    }
  }

  lemma PutLeavesAsIs(content: seq<Option<Slot>>, index: nat, slot: Slot)
    ensures Put(content, index, slot) == content <==> At(content, index) == Some(slot)
  {
    if index >= |content| {
      assert |Put(content, index, slot)| == index + 1;
    }
  }

  lemma NothingAppended(slot: Option<Slot>, e: ProxyEvent)
    ensures slot.Some? && slot.value.TextSlot? && e.TextDelta? ==>
              (slot.value.text + e.delta == slot.value.text <==> e.delta == "")
    ensures slot.Some? && slot.value.ThinkingSlot? && e.ThinkingDelta? ==>
              (slot.value.thinking + e.delta == slot.value.thinking <==> e.delta == "")
    ensures slot.Some? && slot.value.CallSlot? && slot.value.partialJson.Some? && e.ToolCallDelta? ==>
              (slot.value.partialJson.value + e.delta == slot.value.partialJson.value <==> e.delta == "")
  {
  }

  /** One line behind the message: the reader still holds the message exactly if the line carries nothing or one of these
      events, and nothing fails behind it. */
  lemma OneLaterLineRewritesTheResult(
      r: Response, first: seq<string>, line: string, message: AssistantMessage, pieces: seq<seq<string>>,
      decode: Decoder, events: seq<ProxyEvent>, parse: Parser)
    requires r.refused.None? && Lines(TextBefore(r.body)) == first + [line] && !Failed(message)
    requires CarriedBy(first, message, pieces, decode, events)
    ensures var s, received := WholeStream(r, decode, parse), ReceivedMessage(message, pieces, parse);
            && s.result == Some(received)
            && (s.partial == received <==>
                  && (match Payload(line)
                      case None => true
                      case Some(payload) =>
                        decode(payload).Returned? && LeavesAsIs(received, decode(payload).value, parse))
                  && Trouble(r.body).None? && !r.abortedAtEnd)
  {
    hide HandleLines, Lines, TextBefore, Trouble, ReceivedContent, Decoded, Afterwards, Payload, LeavesAsIs, Process,
         WholeStream;
    var received := ReceivedMessage(message, pieces, parse);
    LaterLinesRewriteTheResult(r, first, [line], message, pieces, decode, events, parse);
    NothingAfterwards(received, decode, parse);
    AfterwardsSnoc(received, [], line, decode, parse);
    assert [] + [line] == [line];
    if Payload(line).Some? && decode(Payload(line).value).Returned? {
      OnlyTheseLeaveAsIs(received, decode(Payload(line).value).value, parse);
    }
  }

  /** For one, a line that does not decode makes a finished message a failed one. */
  lemma AMalformedLineBehindTheMessage(
      r: Response, first: seq<string>, line: string, message: AssistantMessage, pieces: seq<seq<string>>,
      decode: Decoder, events: seq<ProxyEvent>, parse: Parser)
    requires r.refused.None? && Lines(TextBefore(r.body)) == first + [line] && !Failed(message)
    requires CarriedBy(first, message, pieces, decode, events)
    requires Payload(line).Some? && decode(Payload(line).value).Threw?
    ensures var s, received := WholeStream(r, decode, parse), ReceivedMessage(message, pieces, parse);
            && s.result == Some(received)
            && s.partial == Spoiled(received, decode(Payload(line).value).message, r.abortedAtError)
            && s.partial != received
  {
    hide HandleLines, Lines, TextBefore, Trouble, ReceivedContent, Encodes, Decoded, Payload;
    CarriedMessage(first, message, pieces, decode, events, parse);
    HandleSnoc(NEW_SESSION, first, line, decode, parse);
  }

  // ----- Streams without a result -----

  predicate CarriesFinal(line: string, decode: Decoder) {
    && Payload(line).Some?
    && decode(Payload(line).value).Returned?
    && IsFinal(decode(Payload(line).value).value)
  }

  predicate HasFinal(lines: seq<string>, decode: Decoder) {
    exists k :: 0 <= k < |lines| && CarriesFinal(lines[k], decode)
  }

  /** A stream that does not fail. */
  ghost predicate Smooth(r: Response, decode: Decoder, parse: Parser) {
    && r.refused.None? && Trouble(r.body).None? && !r.abortedAtEnd
    && HandleLines(NEW_SESSION, Lines(TextBefore(r.body)), decode, parse).1.None?
  }

  lemma HandledLine(s: Session, line: string, decode: Decoder, parse: Parser)
    requires HandleLine(s, line, decode, parse).1.None?
    ensures var s' := HandleLine(s, line, decode, parse).0;
            && s'.done == (s.done || CarriesFinal(line, decode))
            && (s.done ==> s'.result == s.result)
            && (!s.done ==> (if s'.done then s'.result.Some? else s'.result == s.result))
  {
    hide SlotStep, Payload;
  }

  lemma {:induction false} DoneByFinal(lines: seq<string>, decode: Decoder, parse: Parser)
    requires HandleLines(NEW_SESSION, lines, decode, parse).1.None?
    ensures var s := HandleLines(NEW_SESSION, lines, decode, parse).0;
            && (s.done <==> HasFinal(lines, decode))
            && (s.result.Some? <==> s.done)
  {
    hide HandleLine, CarriesFinal;
    if lines != [] {
      var n := |lines| - 1;
      DoneByFinal(lines[..n], decode, parse);
      HandledLine(HandleLines(NEW_SESSION, lines[..n], decode, parse).0, lines[n], decode, parse);
      assert forall k :: 0 <= k < n ==> lines[..n][k] == lines[k];
    }
  }

  lemma {:induction false} ResultWhenDone(lines: seq<string>, decode: Decoder, parse: Parser)
    ensures var s := HandleLines(NEW_SESSION, lines, decode, parse).0; s.result.Some? <==> s.done
  {
    hide SlotStep, Payload;
    if lines != [] {
      ResultWhenDone(lines[..|lines| - 1], decode, parse);
    }
  }

  /** A failure always gives a result. A response that ends without one gives a result exactly if one of its
      terminated lines carries a final event; otherwise whoever waits for the message waits forever. */
  lemma ResultNeedsFinalEvent(r: Response, decode: Decoder, parse: Parser)
    ensures var lines := Lines(TextBefore(r.body));
            WholeStream(r, decode, parse).result.Some? <==>
              !Smooth(r, decode, parse) || HasFinal(lines, decode)
    ensures WholeStream(r, decode, parse).done
  {
    hide HandleLines, Lines, TextBefore, Trouble, HasFinal;
    var lines := Lines(TextBefore(r.body));
    ResultWhenDone(lines, decode, parse);
    if Smooth(r, decode, parse) {
      DoneByFinal(lines, decode, parse);
    }
  }

  // ----- In the agent loop -----

  /** The events as the loop sees them, each with the message as shown at that moment. */
  function Shown(queue: seq<MessageEvent>, shown: seq<AssistantMessage>): seq<StreamEvent>
    requires |shown| == |queue|
    decreases |queue|
  {
    if queue == [] then []
    else
      [match queue[0]
       case Begins => StreamEvent.Start(shown[0])
       case Completes(_) => Finish
       case _ => Update(shown[0])] + Shown(queue[1..], shown[1..])
  }

  lemma {:induction false} ShownStarts(queue: seq<MessageEvent>, shown: seq<AssistantMessage>)
    requires EndsOnce(queue) && |shown| == |queue|
    ensures Starts(Shown(queue, shown)) == Begun(queue)
    decreases |queue|
  {
    BegunFirst(queue);
    var rest := Shown(queue[1..], shown[1..]);
    assert Shown(queue, shown)[1..] == rest;
    if |queue| == 1 {
      NoneBegun();
    } else {
      assert queue[0] == queue[..|queue| - 1][0];
      assert queue[1..][..|queue| - 2] == queue[..|queue| - 1][1..];
      ShownStarts(queue[1..], shown[1..]);
    }
  }

  lemma {:induction false} BegunFirst(queue: seq<MessageEvent>)
    requires queue != []
    ensures Begun(queue) == (if queue[0].Begins? then 1 else 0) + Begun(queue[1..])
  {
    if |queue| > 1 {
      BegunFirst(queue[..|queue| - 1]);
      assert queue[..|queue| - 1][1..] == queue[1..][..|queue| - 2];
    }
  }

  /** A proxied turn: exactly if the server sends at most one `start`, the loop ends up with one new transcript entry,
      the message rebuilt, whatever is shown of it in the meantime. */
  lemma ProxiedTurnIsOneAppend(
      cuts: seq<string>, message: AssistantMessage, pieces: seq<seq<string>>, decode: Decoder,
      events: seq<ProxyEvent>, parse: Parser, error: bool, requested: Origin, shown: seq<AssistantMessage>,
      context: seq<Message>)
    requires Carries(Concat(cuts), message, pieces, decode, events)
    requires |shown| == |WholeStream(Answer(cuts, false, error), decode, parse).queue|
    ensures var seen := Shown(WholeStream(Answer(cuts, false, error), decode, parse).queue, shown);
            var rebuilt := AsMessage(ReceivedMessage(message, pieces, parse), requested);
            StreamContext(seen, context, rebuilt, false) == context + [Assistant(rebuilt)] <==> StartEvents(events) <= 1
  {
    hide HandleLines, Lines, Concat, Decoded, WholeStream, Begun, StartEvents, EndsOnce, Starts, Shown,
         StreamContext;
    ProxiedMessageIsRebuilt(cuts, message, pieces, decode, events, parse, error);
    var queue := WholeStream(Answer(cuts, false, error), decode, parse).queue;
    ShownStarts(queue, shown);
    StreamingIsOneAppend(Shown(queue, shown), context, AsMessage(ReceivedMessage(message, pieces, parse), requested));
  }
}
