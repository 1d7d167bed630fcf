/** `processProxyEvent`: the reducer that rebuilds an assistant message from events stripped of it. */
module Proxy {
  import opened Types

  /** A content block under construction. The JSON text of a tool call is there until its end event. */
  datatype Slot =
    | TextSlot(text: string, signature: Option<string>)
    | ThinkingSlot(thinking: string, signature: Option<string>)
    | CallSlot(id: string, name: string, arguments: Json, partialJson: Option<string>)

  /** The message under construction. Writing behind the end of the content leaves holes. */
  datatype Partial = Partial(
    content: seq<Option<Slot>>, usage: Usage, stopReason: StopReason, errorMessage: Option<string>)

  const EMPTY_PARTIAL: Partial := Partial([], NO_USAGE, Stop, None)

  datatype ProxyEvent =
    | Start
    | TextStart(index: nat)
    | TextDelta(index: nat, delta: string)
    | TextEnd(index: nat, signature: Option<string>)
    | ThinkingStart(index: nat)
    | ThinkingDelta(index: nat, delta: string)
    | ThinkingEnd(index: nat, signature: Option<string>)
    | ToolCallStart(index: nat, id: string, name: string)
    | ToolCallDelta(index: nat, delta: string)
    | ToolCallEnd(index: nat)
    | Done(reason: StopReason, usage: Usage)
    | Error(reason: StopReason, errorMessage: Option<string>, usage: Usage)
    | Unknown

  datatype Kind = TextKind | ThinkingKind | CallKind

  /** What is passed on to the reader of the message; every event also carries the message under construction. */
  datatype MessageEvent =
    | Begins
    | BlockStarts(kind: Kind, index: nat)
    | BlockGrows(kind: Kind, index: nat, delta: string)
    | BlockEnds(index: nat, block: Slot)
    | Completes(reason: StopReason)

  type Parser = string -> Option<Json>

  function Holes(n: nat): (holes: seq<Option<Slot>>)
    ensures |holes| == n && forall k :: 0 <= k < n ==> holes[k] == None
  {
    if n == 0 then [] else Holes(n - 1) + [None]
  }

  /** `content[index] = slot` */
  function Put(content: seq<Option<Slot>>, index: nat, slot: Slot): seq<Option<Slot>> {
    if index < |content| then content[index := Some(slot)]
    else content + Holes(index - |content|) + [Some(slot)]
  }

  /** `content[index]` */
  function At(content: seq<Option<Slot>>, index: nat): Option<Slot> {
    if index < |content| then content[index] else None
  }

  /** The JSON text so far, as string concatenation finds it. */
  function JsonSoFar(slot: Slot): string
    requires slot.CallSlot?
  {
    if slot.partialJson.Some? then slot.partialJson.value else "undefined"
  }

  /** `parseStreamingJson(json) || {}`; no value stands for a value that counts as false. */
  function Arguments(parse: Parser, json: string): Json {
    if parse(json).Some? then parse(json).value else EMPTY_OBJECT
  }

  const NOT_TEXT_DELTA: string := "Received text_delta for non-text content"
  const NOT_TEXT_END: string := "Received text_end for non-text content"
  const NOT_THINKING_DELTA: string := "Received thinking_delta for non-thinking content"
  const NOT_THINKING_END: string := "Received thinking_end for non-thinking content"
  const NOT_CALL_DELTA: string := "Received toolcall_delta for non-toolCall content"

  /** The event changes the block at its index, or is refused there. */
  predicate Addressed(e: ProxyEvent) {
    !e.Start? && !e.Done? && !e.Error? && !e.Unknown?
  }

  /** What an event does to the block it is addressed to, or why it is refused. */
  function SlotStep(slot: Option<Slot>, e: ProxyEvent, parse: Parser): Attempt<Option<Slot>>
    requires Addressed(e)
  {
    match e
    case TextStart(_) => Returned(Some(TextSlot("", None)))
    case TextDelta(_, delta) =>
      if slot.Some? && slot.value.TextSlot? then Returned(Some(TextSlot(slot.value.text + delta, slot.value.signature)))
      else Threw(NOT_TEXT_DELTA)
    case TextEnd(_, signature) =>
      if slot.Some? && slot.value.TextSlot? then Returned(Some(TextSlot(slot.value.text, signature)))
      else Threw(NOT_TEXT_END)
    case ThinkingStart(_) => Returned(Some(ThinkingSlot("", None)))
    case ThinkingDelta(_, delta) =>
      if slot.Some? && slot.value.ThinkingSlot? then
        Returned(Some(ThinkingSlot(slot.value.thinking + delta, slot.value.signature)))
      else Threw(NOT_THINKING_DELTA)
    case ThinkingEnd(_, signature) =>
      if slot.Some? && slot.value.ThinkingSlot? then Returned(Some(ThinkingSlot(slot.value.thinking, signature)))
      else Threw(NOT_THINKING_END)
    case ToolCallStart(_, id, name) => Returned(Some(CallSlot(id, name, EMPTY_OBJECT, Some(""))))
    case ToolCallDelta(_, delta) =>
      if slot.Some? && slot.value.CallSlot? then
        var json := JsonSoFar(slot.value) + delta;
        Returned(Some(slot.value.(arguments := Arguments(parse, json), partialJson := Some(json))))
      else Threw(NOT_CALL_DELTA)
    case ToolCallEnd(_) =>
      if slot.Some? && slot.value.CallSlot? then Returned(Some(slot.value.(partialJson := None)))
      else Returned(slot)
  }

  /** What is passed on for an event that is not refused. */
  function Announced(slot: Option<Slot>, e: ProxyEvent): Option<MessageEvent>
    requires Addressed(e)
  {
    match e
    case TextStart(i) => Some(BlockStarts(TextKind, i))
    case ThinkingStart(i) => Some(BlockStarts(ThinkingKind, i))
    case ToolCallStart(i, _, _) => Some(BlockStarts(CallKind, i))
    case TextDelta(i, delta) => Some(BlockGrows(TextKind, i, delta))
    case ThinkingDelta(i, delta) => Some(BlockGrows(ThinkingKind, i, delta))
    case ToolCallDelta(i, delta) => Some(BlockGrows(CallKind, i, delta))
    case TextEnd(i, _) => if slot.Some? then Some(BlockEnds(i, slot.value)) else None
    case ThinkingEnd(i, _) => if slot.Some? then Some(BlockEnds(i, slot.value)) else None
    case ToolCallEnd(i) => if slot.Some? && slot.value.CallSlot? then Some(BlockEnds(i, slot.value)) else None
  }

  /** One event: the message afterwards, and what is passed on or thrown. */
  function Process(p: Partial, e: ProxyEvent, parse: Parser): (Partial, Attempt<Option<MessageEvent>>) {
    match e
    case Start => (p, Returned(Some(Begins)))
    case Done(reason, usage) => (p.(stopReason := reason, usage := usage), Returned(Some(Completes(reason))))
    case Error(reason, message, usage) =>
      (p.(stopReason := reason, errorMessage := message, usage := usage), Returned(Some(Completes(reason))))
    case Unknown => (p, Returned(None))
    case _ =>
      match SlotStep(At(p.content, e.index), e, parse)
      case Threw(error) => (p, Threw(error))
      case Returned(slot) =>
        (if slot.Some? then p.(content := Put(p.content, e.index, slot.value)) else p, Returned(Announced(slot, e)))
  }

  // ----- The reducer, in place -----

  /** The `partial` object, shared by every event passed on. */
  class PartialMessage {
    var content: seq<Option<Slot>>
    var usage: Usage
    var stopReason: StopReason
    var errorMessage: Option<string>

    function Value(): Partial
      reads this
    {
      Partial(content, usage, stopReason, errorMessage)
    }

    constructor ()
      ensures Value() == EMPTY_PARTIAL
    {
      content, usage, stopReason, errorMessage := [], NO_USAGE, Stop, None;
    }

    method Assign(index: nat, slot: Slot)
      modifies this`content
      ensures content == Put(old(content), index, slot)
    {
      if index < |content| {
        content := content[index := Some(slot)];
      } else {
        content := content + Holes(index - |content|) + [Some(slot)];
      }
    }
  }

  method ProcessProxyEvent(e: ProxyEvent, partial: PartialMessage, parse: Parser)
    returns (outcome: Attempt<Option<MessageEvent>>)
    modifies partial
    ensures (partial.Value(), outcome) == Process(old(partial.Value()), e, parse)
  {
    hide Put, Arguments;
    match e {
      case Start =>
        outcome := Returned(Some(Begins));
      case TextStart(i) =>
        partial.Assign(i, TextSlot("", None));
        outcome := Returned(Some(BlockStarts(TextKind, i)));
      case TextDelta(i, delta) =>
        var content := At(partial.content, i);
        if content.Some? && content.value.TextSlot? {
          partial.Assign(i, TextSlot(content.value.text + delta, content.value.signature));
          return Returned(Some(BlockGrows(TextKind, i, delta)));
        }
        outcome := Threw(NOT_TEXT_DELTA);
      case TextEnd(i, signature) =>
        var content := At(partial.content, i);
        if content.Some? && content.value.TextSlot? {
          var block := TextSlot(content.value.text, signature);
          partial.Assign(i, block);
          return Returned(Some(BlockEnds(i, block)));
        }
        outcome := Threw(NOT_TEXT_END);
      case ThinkingStart(i) =>
        partial.Assign(i, ThinkingSlot("", None));
        outcome := Returned(Some(BlockStarts(ThinkingKind, i)));
      case ThinkingDelta(i, delta) =>
        var content := At(partial.content, i);
        if content.Some? && content.value.ThinkingSlot? {
          partial.Assign(i, ThinkingSlot(content.value.thinking + delta, content.value.signature));
          return Returned(Some(BlockGrows(ThinkingKind, i, delta)));
        }
        outcome := Threw(NOT_THINKING_DELTA);
      case ThinkingEnd(i, signature) =>
        var content := At(partial.content, i);
        if content.Some? && content.value.ThinkingSlot? {
          var block := ThinkingSlot(content.value.thinking, signature);
          partial.Assign(i, block);
          return Returned(Some(BlockEnds(i, block)));
        }
        outcome := Threw(NOT_THINKING_END);
      case ToolCallStart(i, id, name) =>
        partial.Assign(i, CallSlot(id, name, EMPTY_OBJECT, Some("")));
        outcome := Returned(Some(BlockStarts(CallKind, i)));
      case ToolCallDelta(i, delta) =>
        var content := At(partial.content, i);
        if content.Some? && content.value.CallSlot? {
          var block := content.value.(partialJson := Some(JsonSoFar(content.value) + delta));
          block := block.(arguments := Arguments(parse, block.partialJson.value));
          partial.Assign(i, block);
          return Returned(Some(BlockGrows(CallKind, i, delta)));
        }
        outcome := Threw(NOT_CALL_DELTA);
      case ToolCallEnd(i) =>
        var content := At(partial.content, i);
        if content.Some? && content.value.CallSlot? {
          var block := content.value.(partialJson := None);
          partial.Assign(i, block);
          return Returned(Some(BlockEnds(i, block)));
        }
        WriteBack(partial.content, i);
        outcome := Returned(None);
      case Done(reason, usage) =>
        partial.stopReason := reason;
        partial.usage := usage;
        outcome := Returned(Some(Completes(reason)));
      case Error(reason, errorMessage, usage) =>
        partial.stopReason := reason;
        partial.errorMessage := errorMessage;
        partial.usage := usage;
        outcome := Returned(Some(Completes(reason)));
      case Unknown =>
        outcome := Returned(None);
    }
  }

  lemma WriteBack(content: seq<Option<Slot>>, index: nat)
    ensures At(content, index).Some? ==> Put(content, index, At(content, index).value) == content
  {
  }
}
