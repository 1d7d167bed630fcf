/** The state an `Agent` rebuilds from events alone: the reducer in `processEvents`. */
module AgentState {
  import opened Types

  datatype State = State(
    messages: seq<Message>,
    isStreaming: bool,
    streamingMessage: Option<Message>,
    pendingToolCalls: set<string>,
    errorMessage: Option<string>,
    model: Origin)

  function Reduce(s: State, e: AgentEvent): State {
    match e
    case MessageStart(m) => s.(streamingMessage := Some(m))
    case MessageUpdate(m) => s.(streamingMessage := Some(m))
    case MessageEnd(m) => s.(streamingMessage := None, messages := s.messages + [m])
    case ToolStart(id, _, _) => s.(pendingToolCalls := s.pendingToolCalls + {id})
    case ToolEnd(id, _, _, _) => s.(pendingToolCalls := s.pendingToolCalls - {id})
    case TurnEnd(m, _) =>
      if m.Assistant? && m.reply.errorMessage.Some? && m.reply.errorMessage.value != ""
      then s.(errorMessage := m.reply.errorMessage) else s
    case AgentEnd(_) => s.(streamingMessage := None)
    case AgentStart => s
    case TurnStart => s
    case ToolUpdate(_, _, _, _) => s
  }

  function ReduceAll(s: State, events: seq<AgentEvent>): State {
    if events == [] then s else Reduce(ReduceAll(s, events[..|events| - 1]), events[|events| - 1])
  }

  /** The messages completed by a sequence of events. */
  function Completed(events: seq<AgentEvent>): seq<Message> {
    if events == [] then []
    else
      var e := events[|events| - 1];
      Completed(events[..|events| - 1]) + if e.MessageEnd? then [e.message] else []
  }

  lemma {:induction false} TranscriptGrowsByCompleted(s: State, events: seq<AgentEvent>)
    ensures ReduceAll(s, events).messages == s.messages + Completed(events)
    ensures ReduceAll(s, events).isStreaming == s.isStreaming
  {
    if events != [] {
      TranscriptGrowsByCompleted(s, events[..|events| - 1]);
    }
  }

  /** What the last of these events leaves to be shown: a message begun or updated, or nothing behind its end or the end
      of the run; none at all if there is no such event. */
  function LastShown(events: seq<AgentEvent>): Option<Option<Message>> {
    if events == [] then None
    else
      match events[|events| - 1]
      case MessageStart(m) => Some(Some(m))
      case MessageUpdate(m) => Some(Some(m))
      case MessageEnd(_) => Some(None)
      case AgentEnd(_) => Some(None)
      case _ => LastShown(events[..|events| - 1])
  }

  /** The message shown as streaming is the last one begun or updated and not yet ended. */
  lemma {:induction false} StreamingIsLastShown(s: State, events: seq<AgentEvent>)
    ensures ReduceAll(s, events).streamingMessage
         == if LastShown(events).Some? then LastShown(events).value else s.streamingMessage
  {
    if events != [] {
      StreamingIsLastShown(s, events[..|events| - 1]);
    }
  }

  /** The last error that an ended turn has reported. */
  function LastError(events: seq<AgentEvent>): Option<string> {
    if events == [] then None
    else
      match events[|events| - 1]
      case TurnEnd(Assistant(reply), _) =>
        if reply.errorMessage.Some? && |reply.errorMessage.value| > 0 then reply.errorMessage
        else LastError(events[..|events| - 1])
      case _ => LastError(events[..|events| - 1])
  }

  /** The error shown is the last one reported, and stays until the next run begins. */
  lemma {:induction false} ErrorIsLastReported(s: State, events: seq<AgentEvent>)
    ensures ReduceAll(s, events).errorMessage
         == if LastError(events).Some? then LastError(events) else s.errorMessage
  {
    if events != [] {
      ErrorIsLastReported(s, events[..|events| - 1]);
    }
  }

  lemma {:induction false} ReduceAllConcat(s: State, a: seq<AgentEvent>, b: seq<AgentEvent>)
    ensures ReduceAll(s, a + b) == ReduceAll(ReduceAll(s, a), b)
  {
    if b == [] {
      assert a + b == a;
    } else {
      assert (a + b)[..|a + b| - 1] == a + b[..|b| - 1];
      ReduceAllConcat(s, a, b[..|b| - 1]);
    }
  }
}
