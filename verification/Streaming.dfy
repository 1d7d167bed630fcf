/** `streamAssistantResponse`: turning a provider stream into one transcript entry. */
module Streaming {
  import opened Types

  /** A provider event. `Update` is any of the nine text, thinking and tool-call events;
      `Finish` is `done` or `error`. */
  datatype StreamEvent = Start(partial: AssistantMessage) | Update(partial: AssistantMessage) | Finish

  /** The number of `start` events the loop sees before the stream finishes. */
  function Starts(events: seq<StreamEvent>): nat {
    if events == [] || events[0].Finish? then 0
    else (if events[0].Start? then 1 else 0) + Starts(events[1..])
  }

  /** The provider contract: `start` comes at most once. */
  predicate LegalStream(events: seq<StreamEvent>) {
    Starts(events) <= 1
  }

  /** What the loop shows of the stream; `open` says that a partial message is in the transcript. */
  function StreamLog(events: seq<StreamEvent>, final: AssistantMessage, open: bool): seq<Interaction> {
    if events == [] || events[0].Finish? then
      (if open then [] else [Emit(MessageStart(Assistant(final)))]) + [Emit(MessageEnd(Assistant(final)))]
    else if events[0].Start? then
      [Emit(MessageStart(Assistant(events[0].partial)))] + StreamLog(events[1..], final, true)
    else if open then
      [Emit(MessageUpdate(Assistant(events[0].partial)))] + StreamLog(events[1..], final, true)
    else
      StreamLog(events[1..], final, false)
  }

  /** The transcript after the stream, given the transcript so far. */
  function StreamContext(events: seq<StreamEvent>, context: seq<Message>, final: AssistantMessage, open: bool)
    : seq<Message>
    requires open ==> context != []
  {
    if events == [] || events[0].Finish? then
      if open then context[|context| - 1 := Assistant(final)] else context + [Assistant(final)]
    else if events[0].Start? then
      StreamContext(events[1..], context + [Assistant(events[0].partial)], final, true)
    else if open then
      StreamContext(events[1..], context[|context| - 1 := Assistant(events[0].partial)], final, true)
    else
      StreamContext(events[1..], context, final, false)
  }

  /** The slot written while the message streams is the only thing an update touches, so after
      one partial message is in place the rest of a stream without further starts replaces just it. */
  lemma {:induction false} OpenSlotIsReplaced(events: seq<StreamEvent>, context: seq<Message>, final: AssistantMessage)
    requires context != []
    ensures |StreamContext(events, context, final, true)| == |context| + Starts(events)
    ensures Starts(events) == 0 ==>
              StreamContext(events, context, final, true) == context[..|context| - 1] + [Assistant(final)]
  {
    if events == [] || events[0].Finish? {
      assert context[|context| - 1 := Assistant(final)] == context[..|context| - 1] + [Assistant(final)];
    } else {
      var p := Assistant(events[0].partial);
      var next := if events[0].Start? then context + [p] else context[|context| - 1 := p];
      OpenSlotIsReplaced(events[1..], next, final);
    }
  }

  /** Streaming refines a single append, exactly for the streams that keep the provider contract:
      every further `start` would leave a stale partial message behind. */
  lemma {:induction false} StreamingIsOneAppend(events: seq<StreamEvent>, context: seq<Message>, final: AssistantMessage)
    ensures StreamContext(events, context, final, false) == context + [Assistant(final)] <==> LegalStream(events)
  {
    if events == [] || events[0].Finish? {
    } else if events[0].Start? {
      var next := context + [Assistant(events[0].partial)];
      OpenSlotIsReplaced(events[1..], next, final);
      assert next[..|next| - 1] == context;
    } else {
      StreamingIsOneAppend(events[1..], context, final);
    }
  }

  /** The stream is seen up to its end at `n`, and shown from its first `start`, at `s`, on; there may be none. */
  ghost predicate Spans(events: seq<StreamEvent>, s: nat, n: nat) {
    && s <= n <= |events|
    && (forall i :: 0 <= i < n ==> !events[i].Finish?) && (n < |events| ==> events[n].Finish?)
    && (forall i :: 0 <= i < s ==> !events[i].Start?) && (s < n ==> events[s].Start?)
  }

  /** One message event for each provider event from the first `start` on, in order and with its partial message, and
      the final message at the end; without a `start`, the final message alone. */
  ghost predicate ShowsStream(log: seq<Interaction>, events: seq<StreamEvent>, final: AssistantMessage, s: nat, n: nat)
    requires s <= n <= |events|
  {
    if s == n then log == [Emit(MessageStart(Assistant(final))), Emit(MessageEnd(Assistant(final)))]
    else
      && |log| == n - s + 1 && log[n - s] == Emit(MessageEnd(Assistant(final)))
      && forall i :: s <= i < n ==>
           match events[i]
           case Start(partial) => log[i - s] == Emit(MessageStart(Assistant(partial)))
           case Update(partial) => log[i - s] == Emit(MessageUpdate(Assistant(partial)))
           case Finish => false
  }

  lemma {:induction false} OpenStreamIsShown(events: seq<StreamEvent>, final: AssistantMessage, n: nat)
    requires n <= |events| && forall i :: 0 <= i < n ==> !events[i].Finish?
    requires n < |events| ==> events[n].Finish?
    ensures var log := StreamLog(events, final, true);
            && |log| == n + 1 && log[n] == Emit(MessageEnd(Assistant(final)))
            && forall i :: 0 <= i < n ==>
                 match events[i]
                 case Start(partial) => log[i] == Emit(MessageStart(Assistant(partial)))
                 case Update(partial) => log[i] == Emit(MessageUpdate(Assistant(partial)))
                 case Finish => false
  {
    if n > 0 {
      OpenStreamIsShown(events[1..], final, n - 1);
      assert forall i :: 0 < i < n ==> events[i] == events[1..][i - 1];
      var log, rest := StreamLog(events, final, true), StreamLog(events[1..], final, true);
      assert forall i :: 0 < i <= n ==> log[i] == rest[i - 1];
    }
  }

  /** Every stream is shown like this. */
  lemma {:induction false} StreamIsShown(events: seq<StreamEvent>, final: AssistantMessage, s: nat, n: nat)
    requires Spans(events, s, n)
    ensures ShowsStream(StreamLog(events, final, false), events, final, s, n)
  {
    if s == n {
      NothingBeforeStart(events, final, n);
    } else if s == 0 {
      OpenStreamIsShown(events[1..], final, n - 1);
      assert forall i :: 0 < i < n ==> events[i] == events[1..][i - 1];
      var log, rest := StreamLog(events, final, false), StreamLog(events[1..], final, true);
      assert forall i :: 0 < i <= n ==> log[i] == rest[i - 1];
    } else {
      StreamIsShown(events[1..], final, s - 1, n - 1);
      assert forall i :: 0 < i < n ==> events[i] == events[1..][i - 1];
      assert StreamLog(events, final, false) == StreamLog(events[1..], final, false);
    }
  }

  lemma {:induction false} NothingBeforeStart(events: seq<StreamEvent>, final: AssistantMessage, n: nat)
    requires Spans(events, n, n)
    ensures StreamLog(events, final, false)
         == [Emit(MessageStart(Assistant(final))), Emit(MessageEnd(Assistant(final)))]
  {
    if n > 0 {
      NothingBeforeStart(events[1..], final, n - 1);
    }
  }

  method StreamAssistantResponse(
      context: AgentContext, sink: Recorder, events: seq<StreamEvent>, final: AssistantMessage)
    returns (message: AssistantMessage)
    modifies context`messages, sink
    ensures message == final
    ensures context.messages == StreamContext(events, old(context.messages), final, false)
    ensures sink.log == old(sink.log) + [LlmCall(old(context.messages))] + StreamLog(events, final, false)
  {
    sink.Record(LlmCall(context.messages));
    var partialMessage: Option<AssistantMessage> := None;
    var addedPartial := false;
    var k := 0;
    while k < |events| && !events[k].Finish?
      invariant k <= |events|
      invariant addedPartial == partialMessage.Some?
      invariant addedPartial ==> context.messages != []
      invariant StreamContext(events[k..], context.messages, final, addedPartial)
             == StreamContext(events, old(context.messages), final, false)
      invariant sink.log + StreamLog(events[k..], final, addedPartial)
             == old(sink.log) + [LlmCall(old(context.messages))] + StreamLog(events, final, false)
    {
      match events[k] {
        case Start(partial) =>
          partialMessage := Some(partial);
          context.messages := context.messages + [Assistant(partial)];
          addedPartial := true;
          sink.EmitEvent(MessageStart(Assistant(partial)));
        case Update(partial) =>
          if partialMessage.Some? {
            partialMessage := Some(partial);
            context.messages := context.messages[|context.messages| - 1 := Assistant(partial)];
            sink.EmitEvent(MessageUpdate(Assistant(partial)));
          }
      }
      assert events[k..][1..] == events[k + 1..];
      k := k + 1;
    }
    if addedPartial {
      context.messages := context.messages[|context.messages| - 1 := Assistant(final)];
    } else {
      context.messages := context.messages + [Assistant(final)];
      sink.EmitEvent(MessageStart(Assistant(final)));
    }
    sink.EmitEvent(MessageEnd(Assistant(final)));
    message := final;
  }
}
