/** What the reducer of the proxy makes of a whole stream: the message the server took apart, whatever the pieces and
    however the blocks are interleaved. */
module RoundTrip {
  import opened Types
  import opened Proxy

  /** A sequence of events, up to the first one refused. */
  function Fold(p: Partial, events: seq<ProxyEvent>, parse: Parser): Attempt<Partial> {
    if events == [] then Returned(p)
    else
      match Fold(p, events[..|events| - 1], parse)
      case Threw(error) => Threw(error)
      case Returned(q) =>
        var (q', outcome) := Process(q, events[|events| - 1], parse);
        if outcome.Threw? then Threw(outcome.message) else Returned(q')
  }

  predicate IsFor(e: ProxyEvent, i: nat) {
    Addressed(e) && e.index == i
  }

  /** The events for one block. */
  function Project(events: seq<ProxyEvent>, i: nat): seq<ProxyEvent> {
    if events == [] then []
    else
      var e := events[|events| - 1];
      Project(events[..|events| - 1], i) + if IsFor(e, i) then [e] else []
  }

  /** One block on its own. */
  function FoldSlot(slot: Option<Slot>, events: seq<ProxyEvent>, parse: Parser): Attempt<Option<Slot>> {
    if events == [] then Returned(slot)
    else
      match FoldSlot(slot, events[..|events| - 1], parse)
      case Threw(error) => Threw(error)
      case Returned(s) =>
        if Addressed(events[|events| - 1]) then SlotStep(s, events[|events| - 1], parse) else Returned(s)
  }

  lemma FoldSnoc(p: Partial, events: seq<ProxyEvent>, e: ProxyEvent, parse: Parser)
    ensures Fold(p, events + [e], parse)
         == match Fold(p, events, parse)
            case Threw(error) => Threw(error)
            case Returned(q) =>
              if Process(q, e, parse).1.Threw? then Threw(Process(q, e, parse).1.message)
              else Returned(Process(q, e, parse).0)
  {
    hide Process;
    assert (events + [e])[..|events|] == events;
  }

  lemma FoldSlotSnoc(slot: Option<Slot>, events: seq<ProxyEvent>, e: ProxyEvent, parse: Parser)
    requires Addressed(e)
    ensures FoldSlot(slot, events + [e], parse)
         == match FoldSlot(slot, events, parse)
            case Threw(error) => Threw(error)
            case Returned(s) => SlotStep(s, e, parse)
  {
    hide SlotStep;
    assert (events + [e])[..|events|] == events;
  }

  lemma ProjectSnoc(events: seq<ProxyEvent>, e: ProxyEvent, i: nat)
    ensures Project(events + [e], i) == Project(events, i) + if IsFor(e, i) then [e] else []
  {
    assert (events + [e])[..|events|] == events;
  }

  // ----- Blocks do not disturb each other -----

  /** One event changes the block it is for, as that block on its own would, and no other. */
  lemma ProcessIsLocal(p: Partial, e: ProxyEvent, parse: Parser, i: nat)
    ensures var (p', outcome) := Process(p, e, parse);
            if IsFor(e, i) then
              match SlotStep(At(p.content, i), e, parse)
              case Threw(error) => outcome == Threw(error) && p' == p
              case Returned(slot) => outcome.Returned? && At(p'.content, i) == slot
            else
              && At(p'.content, i) == At(p.content, i)
              && (!Addressed(e) ==> outcome.Returned? && p'.content == p.content)
  {
    if Addressed(e) && SlotStep(At(p.content, e.index), e, parse).Returned? {
      SlotsRemain(p.content, e, parse);
      PutChangesOne(p.content, e.index, i);
    }
  }

  lemma SlotsRemain(content: seq<Option<Slot>>, e: ProxyEvent, parse: Parser)
    requires Addressed(e) && SlotStep(At(content, e.index), e, parse).Returned?
    ensures SlotStep(At(content, e.index), e, parse).value.None? ==> At(content, e.index).None?
  {
  }

  lemma PutChangesOne(content: seq<Option<Slot>>, index: nat, i: nat)
    ensures forall slot :: At(Put(content, index, slot), i) == if i == index then Some(slot) else At(content, i)
    ensures forall slot :: |Put(content, index, slot)| == if index < |content| then |content| else index + 1
  {
  }

  /** Blocks are independent: in any interleaving, each block ends up as its own events alone would leave it. */
  lemma {:induction false} SlotsAreIndependent(p: Partial, events: seq<ProxyEvent>, parse: Parser, i: nat)
    requires Fold(p, events, parse).Returned?
    ensures FoldSlot(At(p.content, i), Project(events, i), parse)
         == Returned(At(Fold(p, events, parse).value.content, i))
  {
    hide Process, SlotStep, Put, At;
    if events != [] {
      var front, e := events[..|events| - 1], events[|events| - 1];
      assert front + [e] == events;
      FoldSnoc(p, front, e, parse);
      ProjectSnoc(front, e, i);
      SlotsAreIndependent(p, front, parse, i);
      ProcessIsLocal(Fold(p, front, parse).value, e, parse, i);
      if IsFor(e, i) {
        FoldSlotSnoc(At(p.content, i), Project(front, i), e, parse);
      } else {
        assert Project(front, i) + [] == Project(front, i);
      }
    }
  }

  /** If a sequence is refused, it is refused in some block, for the same reason. */
  lemma {:induction false} RefusedInSomeSlot(p: Partial, events: seq<ProxyEvent>, parse: Parser) returns (i: nat)
    requires Fold(p, events, parse).Threw?
    ensures FoldSlot(At(p.content, i), Project(events, i), parse) == Threw(Fold(p, events, parse).message)
  {
    hide Process, SlotStep, Put, At;
    var front, e := events[..|events| - 1], events[|events| - 1];
    assert front + [e] == events;
    FoldSnoc(p, front, e, parse);
    if Fold(p, front, parse).Threw? {
      i := RefusedInSomeSlot(p, front, parse);
      ProjectSnoc(front, e, i);
      if IsFor(e, i) {
        FoldSlotSnoc(At(p.content, i), Project(front, i), e, parse);
      } else {
        assert Project(front, i) + [] == Project(front, i);
      }
    } else {
      var q := Fold(p, front, parse).value;
      i := if Addressed(e) then e.index else 0;
      ProcessIsLocal(q, e, parse, i);
      ProjectSnoc(front, e, i);
      SlotsAreIndependent(p, front, parse, i);
      FoldSlotSnoc(At(p.content, i), Project(front, i), e, parse);
    }
  }

  /** A content without a hole at its end. */
  predicate Trimmed(content: seq<Option<Slot>>) {
    content == [] || content[|content| - 1].Some?
  }

  lemma ProcessTrims(p: Partial, e: ProxyEvent, parse: Parser)
    requires Trimmed(p.content)
    ensures Trimmed(Process(p, e, parse).0.content)
  {
    if Addressed(e) && SlotStep(At(p.content, e.index), e, parse).Returned? {
      PutChangesOne(p.content, e.index, e.index);
    }
  }

  lemma {:induction false} FoldTrims(p: Partial, events: seq<ProxyEvent>, parse: Parser)
    requires Trimmed(p.content) && Fold(p, events, parse).Returned?
    ensures Trimmed(Fold(p, events, parse).value.content)
  {
    hide Process, Trimmed;
    if events != [] {
      var front, e := events[..|events| - 1], events[|events| - 1];
      FoldTrims(p, front, parse);
      ProcessTrims(Fold(p, front, parse).value, e, parse);
    }
  }

  lemma NotLonger(a: seq<Option<Slot>>, b: seq<Option<Slot>>)
    requires Trimmed(a)
    requires forall i: nat :: At(a, i) == At(b, i)
    ensures |a| <= |b|
  {
    if a != [] {
      assert At(a, |a| - 1) == At(b, |a| - 1);
    }
  }

  lemma SlotsDetermine(a: seq<Option<Slot>>, b: seq<Option<Slot>>)
    requires Trimmed(a) && Trimmed(b)
    requires forall i: nat :: At(a, i) == At(b, i)
    ensures a == b
  {
    NotLonger(a, b);
    NotLonger(b, a);
    assert forall i: nat :: i < |a| ==> a[i] == At(a, i) && b[i] == At(b, i);
  }

  /** Interleavings of the same blocks cannot be told apart: none is refused if one is not, and all give the same
      content. */
  lemma InterleavingIsIrrelevant(a: seq<ProxyEvent>, b: seq<ProxyEvent>, parse: Parser)
    requires forall i: nat :: Project(a, i) == Project(b, i)
    ensures Fold(EMPTY_PARTIAL, a, parse).Returned? <==> Fold(EMPTY_PARTIAL, b, parse).Returned?
    ensures Fold(EMPTY_PARTIAL, a, parse).Returned? ==>
              Fold(EMPTY_PARTIAL, a, parse).value.content == Fold(EMPTY_PARTIAL, b, parse).value.content
  {
    hide Fold, FoldSlot, Project, At;
    var fa, fb := Fold(EMPTY_PARTIAL, a, parse), Fold(EMPTY_PARTIAL, b, parse);
    if fa.Returned? && fb.Returned? {
      forall i: nat ensures At(fa.value.content, i) == At(fb.value.content, i) {
        SlotsAreIndependent(EMPTY_PARTIAL, a, parse, i);
        SlotsAreIndependent(EMPTY_PARTIAL, b, parse, i);
      }
      FoldTrims(EMPTY_PARTIAL, a, parse);
      FoldTrims(EMPTY_PARTIAL, b, parse);
      SlotsDetermine(fa.value.content, fb.value.content);
    } else if fa.Returned? {
      var i := RefusedInSomeSlot(EMPTY_PARTIAL, b, parse);
      SlotsAreIndependent(EMPTY_PARTIAL, a, parse, i);
    } else if fb.Returned? {
      var i := RefusedInSomeSlot(EMPTY_PARTIAL, a, parse);
      SlotsAreIndependent(EMPTY_PARTIAL, b, parse, i);
    }
  }

  // ----- Taking a message apart -----

  function Concat(pieces: seq<string>): string {
    if pieces == [] then "" else Concat(pieces[..|pieces| - 1]) + pieces[|pieces| - 1]
  }

  function Delta(block: Block, i: nat, piece: string): ProxyEvent {
    match block
    case Text(_, _) => TextDelta(i, piece)
    case Thinking(_, _, _) => ThinkingDelta(i, piece)
    case Call(_) => ToolCallDelta(i, piece)
  }

  function Deltas(block: Block, i: nat, pieces: seq<string>): seq<ProxyEvent> {
    if pieces == [] then []
    else Deltas(block, i, pieces[..|pieces| - 1]) + [Delta(block, i, pieces[|pieces| - 1])]
  }

  function Opening(block: Block, i: nat): ProxyEvent {
    match block
    case Text(_, _) => TextStart(i)
    case Thinking(_, _, _) => ThinkingStart(i)
    case Call(c) => ToolCallStart(i, c.id, c.name)
  }

  function Closing(block: Block, i: nat): ProxyEvent {
    match block
    case Text(_, signature) => TextEnd(i, signature)
    case Thinking(_, signature, _) => ThinkingEnd(i, signature)
    case Call(_) => ToolCallEnd(i)
  }

  /** The events for a block whose text, thinking or JSON is sent in the given pieces. */
  function BlockEvents(block: Block, i: nat, pieces: seq<string>): seq<ProxyEvent> {
    [Opening(block, i)] + Deltas(block, i, pieces) + [Closing(block, i)]
  }

  /** What the parser makes of a JSON text, or an empty object where it makes nothing of it. */
  function Parsed(parse: Parser, json: string): Json {
    match parse(json)
    case Some(value) => value
    case None => Json("{}")
  }

  /** What arrives of a block. */
  function Received(block: Block, pieces: seq<string>, parse: Parser): Slot {
    match block
    case Text(_, signature) => TextSlot(Concat(pieces), signature)
    case Thinking(_, signature, _) => ThinkingSlot(Concat(pieces), signature)
    case Call(c) =>
      CallSlot(c.id, c.name, if pieces == [] then EMPTY_OBJECT else Parsed(parse, Concat(pieces)), None)
  }

  /** The block between its start and its end event. */
  function Growing(block: Block, pieces: seq<string>, parse: Parser): Slot {
    match block
    case Text(_, _) => TextSlot(Concat(pieces), None)
    case Thinking(_, _, _) => ThinkingSlot(Concat(pieces), None)
    case Call(c) =>
      CallSlot(c.id, c.name, if pieces == [] then EMPTY_OBJECT else Parsed(parse, Concat(pieces)),
               Some(Concat(pieces)))
  }

  lemma OneDelta(block: Block, i: nat, pieces: seq<string>, piece: string, parse: Parser)
    ensures SlotStep(Some(Growing(block, pieces, parse)), Delta(block, i, piece), parse)
         == Returned(Some(Growing(block, pieces + [piece], parse)))
  {
    assert (pieces + [piece])[..|pieces|] == pieces;
    assert [] + piece == piece;
  }

  lemma OpeningStarts(slot: Option<Slot>, block: Block, i: nat, parse: Parser)
    ensures FoldSlot(slot, [Opening(block, i)], parse) == Returned(Some(Growing(block, [], parse)))
  {
    FoldSlotSnoc(slot, [], Opening(block, i), parse);
    assert [] + [Opening(block, i)] == [Opening(block, i)];
  }

  lemma {:induction false} DeltasGrow(
      slot: Option<Slot>, block: Block, i: nat, pieces: seq<string>, parse: Parser)
    ensures FoldSlot(slot, [Opening(block, i)] + Deltas(block, i, pieces), parse)
         == Returned(Some(Growing(block, pieces, parse)))
  {
    hide Parsed, SlotStep, FoldSlot, Growing, Opening;
    if pieces == [] {
      OpeningStarts(slot, block, i, parse);
      assert [Opening(block, i)] + [] == [Opening(block, i)];
    } else {
      var front, piece := pieces[..|pieces| - 1], pieces[|pieces| - 1];
      DeltasGrow(slot, block, i, front, parse);
      OneDelta(block, i, front, piece, parse);
      assert front + [piece] == pieces;
      Associate([Opening(block, i)], Deltas(block, i, front), [Delta(block, i, piece)]);
      FoldSlotSnoc(slot, [Opening(block, i)] + Deltas(block, i, front), Delta(block, i, piece), parse);
    }
  }

  lemma BlockIsRebuilt(slot: Option<Slot>, block: Block, i: nat, pieces: seq<string>, parse: Parser)
    ensures FoldSlot(slot, BlockEvents(block, i, pieces), parse) == Returned(Some(Received(block, pieces, parse)))
  {
    hide Deltas, FoldSlot, Parsed;
    DeltasGrow(slot, block, i, pieces, parse);
    FoldSlotSnoc(slot, [Opening(block, i)] + Deltas(block, i, pieces), Closing(block, i), parse);
  }

  /** The events are an interleaving of the blocks, each sent in its pieces, with the last event still to come. */
  ghost predicate Encodes(events: seq<ProxyEvent>, content: seq<Block>, pieces: seq<seq<string>>) {
    && |pieces| == |content|
    && (forall e :: e in events ==> !e.Done? && !e.Error?)
    && forall i: nat :: Project(events, i) == if i < |content| then BlockEvents(content[i], i, pieces[i]) else []
  }

  /** The blocks sent one after the other. */
  function InOrder(content: seq<Block>, pieces: seq<seq<string>>): seq<ProxyEvent>
    requires |pieces| == |content|
  {
    if content == [] then []
    else
      var n := |content| - 1;
      InOrder(content[..n], pieces[..n]) + BlockEvents(content[n], n, pieces[n])
  }

  lemma {:induction false} ProjectConcat(a: seq<ProxyEvent>, b: seq<ProxyEvent>, i: nat)
    ensures Project(a + b, i) == Project(a, i) + Project(b, i)
  {
    hide Project, IsFor;
    NothingProjected(i);
    if b == [] {
      assert a + b == a && Project(a, i) + [] == Project(a, i);
    } else {
      var front, e := b[..|b| - 1], b[|b| - 1];
      var own := if IsFor(e, i) then [e] else [];
      ProjectConcat(a, front, i);
      assert a + b == (a + front) + [e] && front + [e] == b;
      ProjectSnoc(a + front, e, i);
      ProjectSnoc(front, e, i);
      Associate(Project(a, i), Project(front, i), own);
    }
  }

  lemma NothingProjected(i: nat)
    ensures Project([], i) == []
  {
  }

  lemma {:induction false} OnlyFor(events: seq<ProxyEvent>, j: nat, i: nat)
    requires forall e :: e in events ==> IsFor(e, j)
    ensures Project(events, i) == if i == j then events else []
  {
    hide Project;
    NothingProjected(i);
    if events != [] {
      var front, e := events[..|events| - 1], events[|events| - 1];
      OnlyFor(front, j, i);
      ProjectSnoc(front, e, i);
      assert e in events;
      assert front + [e] == events;
    }
  }

  lemma {:induction false} DeltasAreFor(block: Block, i: nat, pieces: seq<string>)
    ensures forall e :: e in Deltas(block, i, pieces) ==> IsFor(e, i)
  {
    if pieces != [] {
      DeltasAreFor(block, i, pieces[..|pieces| - 1]);
    }
  }

  lemma BlockIsFor(block: Block, i: nat, pieces: seq<string>)
    ensures forall e :: e in BlockEvents(block, i, pieces) ==> IsFor(e, i)
  {
    hide Deltas;
    DeltasAreFor(block, i, pieces);
  }

  /** Sending the blocks one after the other is one of the interleavings. */
  lemma {:induction false} InOrderEncodes(content: seq<Block>, pieces: seq<seq<string>>)
    requires |pieces| == |content|
    ensures Encodes(InOrder(content, pieces), content, pieces)
  {
    hide Project, BlockEvents;
    if content == [] {
      NothingEncodes();
    } else {
      var n := |content| - 1;
      var front, last := InOrder(content[..n], pieces[..n]), BlockEvents(content[n], n, pieces[n]);
      InOrderEncodes(content[..n], pieces[..n]);
      BlockIsFor(content[n], n, pieces[n]);
      assert forall i: nat :: i < n ==> content[..n][i] == content[i] && pieces[..n][i] == pieces[i];
      forall i: nat ensures Project(front + last, i) == if i <= n then BlockEvents(content[i], i, pieces[i]) else [] {
        ProjectConcat(front, last, i);
        OnlyFor(last, n, i);
      }
    }
  }

  lemma NothingEncodes()
    ensures Encodes([], [], [])
  {
  }

  function Final(message: AssistantMessage): ProxyEvent {
    if Failed(message) then ProxyEvent.Error(message.stopReason, message.errorMessage, message.usage)
    else Done(message.stopReason, message.usage)
  }

  function ReceivedContent(content: seq<Block>, pieces: seq<seq<string>>, parse: Parser): (r: seq<Option<Slot>>)
    requires |pieces| == |content|
    ensures |r| == |content|
    ensures forall i :: 0 <= i < |r| ==> r[i] == Some(Received(content[i], pieces[i], parse))
  {
    if content == [] then []
    else
      var n := |content| - 1;
      ReceivedContent(content[..n], pieces[..n], parse) + [Some(Received(content[n], pieces[n], parse))]
  }

  /** What arrives of a message. */
  function ReceivedMessage(message: AssistantMessage, pieces: seq<seq<string>>, parse: Parser): Partial
    requires |pieces| == |message.content|
  {
    Partial(ReceivedContent(message.content, pieces, parse), message.usage, message.stopReason,
            if Failed(message) then message.errorMessage else None)
  }

  /** None of the events before the last one touches anything but the content. */
  lemma {:induction false} OnlyContentGrows(p: Partial, events: seq<ProxyEvent>, parse: Parser)
    requires Fold(p, events, parse).Returned?
    requires forall e :: e in events ==> !e.Done? && !e.Error?
    ensures Fold(p, events, parse).value == p.(content := Fold(p, events, parse).value.content)
  {
    hide SlotStep;
    if events != [] {
      OnlyContentGrows(p, events[..|events| - 1], parse);
    }
  }

  lemma ContentIsRebuilt(
      events: seq<ProxyEvent>, content: seq<Block>, pieces: seq<seq<string>>, parse: Parser)
    requires Encodes(events, content, pieces)
    ensures Fold(EMPTY_PARTIAL, events, parse)
         == Returned(EMPTY_PARTIAL.(content := ReceivedContent(content, pieces, parse)))
  {
    hide Fold, FoldSlot, Project, BlockEvents, Received;
    if Fold(EMPTY_PARTIAL, events, parse).Threw? {
      var i := RefusedInSomeSlot(EMPTY_PARTIAL, events, parse);
      SlotEnds(events, content, pieces, parse, i);
    } else {
      var got := Fold(EMPTY_PARTIAL, events, parse).value.content;
      var want := ReceivedContent(content, pieces, parse);
      forall i: nat ensures At(got, i) == At(want, i) {
        SlotsAreIndependent(EMPTY_PARTIAL, events, parse, i);
        SlotEnds(events, content, pieces, parse, i);
      }
      FoldTrims(EMPTY_PARTIAL, events, parse);
      SlotsDetermine(got, want);
      OnlyContentGrows(EMPTY_PARTIAL, events, parse);
    }
  }

  lemma SlotEnds(events: seq<ProxyEvent>, content: seq<Block>, pieces: seq<seq<string>>, parse: Parser, i: nat)
    requires Encodes(events, content, pieces)
    ensures FoldSlot(None, Project(events, i), parse)
         == Returned(if i < |content| then Some(Received(content[i], pieces[i], parse)) else None)
  {
    hide Project, BlockEvents, Received;
    if i < |content| {
      BlockIsRebuilt(None, content[i], i, pieces[i], parse);
    }
  }

  /** The round trip: any interleaving of the blocks, each cut into any pieces, is folded back into what can arrive of
      the message, with the arguments of a call parsed from all its JSON. */
  lemma MessageIsRebuilt(
      message: AssistantMessage, events: seq<ProxyEvent>, pieces: seq<seq<string>>, parse: Parser)
    requires Encodes(events, message.content, pieces)
    ensures Fold(EMPTY_PARTIAL, events + [Final(message)], parse)
         == Returned(ReceivedMessage(message, pieces, parse))
  {
    hide Fold, Project, BlockEvents, Received;
    ContentIsRebuilt(events, message.content, pieces, parse);
    FoldSnoc(EMPTY_PARTIAL, events, Final(message), parse);
  }

  // ----- What is lost -----

  function AsBlock(slot: Slot): Block {
    match slot
    case TextSlot(text, signature) => Text(text, signature)
    case ThinkingSlot(thinking, signature) => Thinking(thinking, signature, false)
    case CallSlot(id, name, arguments, _) => Call(ToolCall(id, name, arguments, None))
  }

  function AsBlocks(content: seq<Option<Slot>>): (blocks: seq<Block>)
    requires forall i :: 0 <= i < |content| ==> content[i].Some?
    ensures |blocks| == |content| && forall i :: 0 <= i < |blocks| ==> blocks[i] == AsBlock(content[i].value)
  {
    if content == [] then []
    else
      var n := |content| - 1;
      AsBlocks(content[..n]) + [AsBlock(content[n].value)]
  }

  /** A message under construction without holes, as an assistant message of the model that was requested. */
  function AsMessage(p: Partial, requested: Origin): AssistantMessage
    requires forall i :: 0 <= i < |p.content| ==> p.content[i].Some?
  {
    PlainReply(AsBlocks(p.content), requested, p.usage, p.stopReason, p.errorMessage)
  }

  /** The pieces make up the text or the thinking; for a call they are pieces of some JSON text. */
  predicate CutsUp(block: Block, pieces: seq<string>) {
    match block
    case Text(text, _) => Concat(pieces) == text
    case Thinking(thinking, _, _) => Concat(pieces) == thinking
    case Call(_) => true
  }

  /** The block has nothing that the wire does not carry, and the JSON sent for a call means its arguments. */
  predicate Survives(block: Block, pieces: seq<string>, parse: Parser) {
    match block
    case Text(_, _) => true
    case Thinking(_, _, redacted) => !redacted
    case Call(c) =>
      && c.thoughtSignature.None?
      && c.arguments == if pieces == [] then EMPTY_OBJECT else Parsed(parse, Concat(pieces))
  }

  lemma BlockSurvives(block: Block, pieces: seq<string>, parse: Parser)
    requires CutsUp(block, pieces)
    ensures AsBlock(Received(block, pieces, parse)) == block <==> Survives(block, pieces, parse)
  {
  }

  /** The message has nothing beside its blocks that the wire does not carry, and it is from the model requested. */
  predicate FitsTheWire(message: AssistantMessage, requested: Origin) {
    && message.origin == requested
    && message.responseModel.None? && message.responseId.None? && message.diagnostics.None?
    && (Failed(message) || message.errorMessage.None?)
  }

  /** The message that arrives is the message sent exactly if no thinking block is redacted, no call has a thought
      signature, the JSON of every call parses to its arguments, only a failed message has an error message, the model
      is the one requested, and there is no response model, no response id and no diagnostics. */
  lemma ArrivesIntact(message: AssistantMessage, pieces: seq<seq<string>>, parse: Parser, requested: Origin)
    requires |pieces| == |message.content|
    requires forall i :: 0 <= i < |pieces| ==> CutsUp(message.content[i], pieces[i])
    ensures AsMessage(ReceivedMessage(message, pieces, parse), requested) == message <==>
              && (forall i :: 0 <= i < |pieces| ==> Survives(message.content[i], pieces[i], parse))
              && FitsTheWire(message, requested)
  {
    hide Survives, Received, AsBlock, CutsUp;
    var content := AsBlocks(ReceivedContent(message.content, pieces, parse));
    forall i | 0 <= i < |pieces|
      ensures content[i] == message.content[i] <==> Survives(message.content[i], pieces[i], parse)
    {
      BlockSurvives(message.content[i], pieces[i], parse);
    }
  }

  /** A plain text reply loses the id that its provider has given it, and nothing else. */
  lemma AResponseIdIsLost(text: string, id: string, requested: Origin, parse: Parser)
    ensures var sent := PlainReply([Text(text, None)], requested, NO_USAGE, Stop, None).(responseId := Some(id));
            var events := InOrder(sent.content, [[text]]) + [Final(sent)];
            && Fold(EMPTY_PARTIAL, events, parse).Returned?
            && Fold(EMPTY_PARTIAL, events, parse).value == ReceivedMessage(sent, [[text]], parse)
            && AsMessage(Fold(EMPTY_PARTIAL, events, parse).value, requested) == sent.(responseId := None) != sent
  {
    hide Fold, InOrder;
    var sent := PlainReply([Text(text, None)], requested, NO_USAGE, Stop, None).(responseId := Some(id));
    InOrderEncodes(sent.content, [[text]]);
    MessageIsRebuilt(sent, InOrder(sent.content, [[text]]), [[text]], parse);
    var front := [text][..0];
    assert Concat(front) == "" && Concat([text]) == "" + text == text;
    ArrivesIntact(sent.(responseId := None), [[text]], parse, requested);
  }

  // ----- Deltas behind an end -----

  /** Events for one tool call, from a start on. */
  ghost predicate OfOneCall(events: seq<ProxyEvent>) {
    && events != [] && events[0].ToolCallStart?
    && forall k :: 0 <= k < |events| ==> events[k].ToolCallStart? || events[k].ToolCallDelta? || events[k].ToolCallEnd?
  }

  /** The deltas since the last start. */
  function DeltasSince(events: seq<ProxyEvent>): seq<string> {
    if events == [] then []
    else
      match events[|events| - 1]
      case ToolCallStart(_, _, _) => []
      case ToolCallDelta(_, delta) => DeltasSince(events[..|events| - 1]) + [delta]
      case _ => DeltasSince(events[..|events| - 1])
  }

  /** The call has ended, and no delta or start has come since. */
  predicate HasEnded(events: seq<ProxyEvent>) {
    events != [] && events[|events| - 1].ToolCallEnd?
  }

  /** If a delta follows an end since the last start: what had been sent of the JSON before the last such end. */
  function SentBeforeResuming(events: seq<ProxyEvent>): Option<string> {
    if events == [] then None
    else
      var front := events[..|events| - 1];
      match events[|events| - 1]
      case ToolCallStart(_, _, _) => None
      case ToolCallDelta(_, _) => if HasEnded(front) then Some(Concat(DeltasSince(front))) else SentBeforeResuming(front)
      case _ => SentBeforeResuming(front)
  }

  /** The JSON text that the reducer goes by: what was sent, with `undefined` in place of what was sent before the last
      end that a delta follows. */
  function JsonKept(events: seq<ProxyEvent>): string {
    var sent := Concat(DeltasSince(events));
    match SentBeforeResuming(events)
    case None => sent
    case Some(before) => if |before| <= |sent| then "undefined" + sent[|before|..] else sent
  }

  /** The block of the call, as it is kept. */
  ghost predicate Keeps(slot: Option<Slot>, events: seq<ProxyEvent>, parse: Parser) {
    && slot.Some? && slot.value.CallSlot?
    && slot.value.arguments == (if DeltasSince(events) == [] then EMPTY_OBJECT else Parsed(parse, JsonKept(events)))
    && slot.value.partialJson == (if HasEnded(events) then None else Some(JsonKept(events)))
  }

  /** What was sent before resuming is the beginning of what has been sent. */
  lemma {:induction false} SentIsPrefix(events: seq<ProxyEvent>)
    ensures SentBeforeResuming(events).Some? ==> SentBeforeResuming(events).value <= Concat(DeltasSince(events))
    ensures DeltasSince(events) == [] ==> SentBeforeResuming(events).None?
  {
    if events != [] {
      var front := events[..|events| - 1];
      SentIsPrefix(front);
      if events[|events| - 1].ToolCallDelta? {
        var deltas, delta := DeltasSince(front), events[|events| - 1].delta;
        assert (deltas + [delta])[..|deltas|] == deltas;
      }
    }
  }

  lemma JsonKeptAfterDelta(events: seq<ProxyEvent>, e: ProxyEvent)
    requires e.ToolCallDelta?
    ensures JsonKept(events + [e]) == (if HasEnded(events) then "undefined" else JsonKept(events)) + e.delta
    ensures DeltasSince(events + [e]) == DeltasSince(events) + [e.delta]
  {
    var all := events + [e];
    assert all[..|events|] == events;
    var deltas := DeltasSince(events);
    assert (deltas + [e.delta])[..|deltas|] == deltas;
    var sent := Concat(deltas);
    SentIsPrefix(events);
    if HasEnded(events) {
      assert (sent + e.delta)[|sent|..] == e.delta;
    } else if SentBeforeResuming(events).Some? {
      var before := SentBeforeResuming(events).value;
      assert (sent + e.delta)[|before|..] == sent[|before|..] + e.delta;
      Associate("undefined", sent[|before|..], e.delta);
    }
  }

  lemma StartKeeps(s: Option<Slot>, front: seq<ProxyEvent>, e: ProxyEvent, parse: Parser)
    requires e.ToolCallStart?
    ensures SlotStep(s, e, parse).Returned? && Keeps(SlotStep(s, e, parse).value, front + [e], parse)
  {
    assert (front + [e])[..|front|] == front;
  }

  lemma DeltaKeeps(s: Option<Slot>, front: seq<ProxyEvent>, e: ProxyEvent, parse: Parser)
    requires e.ToolCallDelta? && Keeps(s, front, parse)
    ensures SlotStep(s, e, parse).Returned? && Keeps(SlotStep(s, e, parse).value, front + [e], parse)
  {
    hide DeltasSince, JsonKept;
    JsonKeptAfterDelta(front, e);
  }

  lemma EndKeeps(s: Option<Slot>, front: seq<ProxyEvent>, e: ProxyEvent, parse: Parser)
    requires e.ToolCallEnd? && Keeps(s, front, parse)
    ensures SlotStep(s, e, parse).Returned? && Keeps(SlotStep(s, e, parse).value, front + [e], parse)
  {
    hide Parsed, Concat;
    assert (front + [e])[..|front|] == front;
    assert JsonKept(front + [e]) == JsonKept(front);
  }

  lemma {:induction false} CallIsKept(slot: Option<Slot>, events: seq<ProxyEvent>, parse: Parser)
    requires OfOneCall(events)
    ensures FoldSlot(slot, events, parse).Returned? && Keeps(FoldSlot(slot, events, parse).value, events, parse)
  {
    hide Keeps, SlotStep, FoldSlot;
    var front, e := events[..|events| - 1], events[|events| - 1];
    assert front + [e] == events;
    FoldSlotSnoc(slot, front, e, parse);
    if front == [] {
      NothingFolded(slot, parse);
      StartKeeps(slot, front, e, parse);
    } else {
      CallIsKept(slot, front, parse);
      var s := FoldSlot(slot, front, parse).value;
      match e {
        case ToolCallStart(_, _, _) => StartKeeps(s, front, e, parse);
        case ToolCallDelta(_, _) => DeltaKeeps(s, front, e, parse);
        case ToolCallEnd(_) => EndKeeps(s, front, e, parse);
      }
    }
  }

  lemma NothingFolded(slot: Option<Slot>, parse: Parser)
    ensures FoldSlot(slot, [], parse) == Returned(slot)
  {
  }

  /** The JSON text that the reducer goes by is what has been sent since the last start if and only if no delta follows
      an end, or what was sent before it happens to spell `undefined`. */
  lemma JsonIsWhatWasSent(events: seq<ProxyEvent>)
    ensures JsonKept(events) == Concat(DeltasSince(events)) <==>
              SentBeforeResuming(events).None? || SentBeforeResuming(events) == Some("undefined")
  {
    SentIsPrefix(events);
    if SentBeforeResuming(events).Some? {
      var before, sent := SentBeforeResuming(events).value, Concat(DeltasSince(events));
      assert sent == before + sent[|before|..];
      SamePrefix("undefined", before, sent[|before|..]);
    }
  }

  lemma SamePrefix(a: string, b: string, rest: string)
    ensures a + rest == b + rest <==> a == b
  {
    if a + rest == b + rest {
      assert |a| == |b|;
      assert (a + rest)[..|a|] == a && (b + rest)[..|b|] == b;
    }
  }

  /** In every message under construction, whatever else is interleaved: the arguments of a call are the parse of the
      JSON text that the reducer goes by, and empty as long as no delta has come since the last start. */
  lemma ArgumentsOfCall(p: Partial, events: seq<ProxyEvent>, parse: Parser, i: nat)
    requires Fold(p, events, parse).Returned? && OfOneCall(Project(events, i))
    ensures var own, slot := Project(events, i), At(Fold(p, events, parse).value.content, i);
            && slot.Some? && slot.value.CallSlot?
            && slot.value.arguments
            == if DeltasSince(own) == [] then EMPTY_OBJECT else Parsed(parse, JsonKept(own))
  {
    hide Fold, FoldSlot, Project, Parsed, DeltasSince, JsonKept;
    SlotsAreIndependent(p, events, parse, i);
    CallIsKept(At(p.content, i), Project(events, i), parse);
  }

  /** A delta behind the end of its call: the text parsed begins with `undefined`. */
  lemma ADeltaBehindTheEnd(id: string, name: string, delta: string, parse: Parser)
    ensures var events := [ToolCallStart(0, id, name), ToolCallEnd(0), ToolCallDelta(0, delta)];
            (FoldSlot(None, events, parse)
             == Returned(Some(CallSlot(id, name, Parsed(parse, "undefined" + delta), Some("undefined" + delta)))))
  {
    var a, b, d := ToolCallStart(0, id, name), ToolCallEnd(0), ToolCallDelta(0, delta);
    NothingFolded(None, parse);
    FoldSlotSnoc(None, [], a, parse);
    FoldSlotSnoc(None, [a], b, parse);
    FoldSlotSnoc(None, [a, b], d, parse);
    assert [] + [a] == [a] && [a] + [b] == [a, b] && [a, b] + [d] == [a, b, d];
  }
}
