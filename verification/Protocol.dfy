/** The protocol a run of the loop keeps towards its surroundings, stated without the loop: an observer
    that sees one interaction at a time and gives up on the first one out of line. */
module Protocol {
  import opened Types

  /** `exact`: every call of a completed turn has its result (nobody aborts).
      `mirrored`: the transcript handed out is the one the observer has rebuilt from the events; at the hooks around a
      call, without the results of the turn. */
  datatype Rules = Rules(exact: bool, mirrored: bool)

  /** `Started` is before the first turn, `Between` between turns, `Opening` before the provider call, `Calling` during
      it, `Acting` from the end of the assistant message to the end of the turn, `Closing` behind a failed turn. */
  datatype Phase = Fresh | Started | Between | Opening | Calling | Acting | Closing | Over

  /** What the observer knows: the transcript and its part added by this run; the messages announced by the
      caller or a poll and not yet injected; the message being shown; and, for the current turn, the assistant
      message, how many of its calls have begun, the ids begun and not executed, the ids in execution, the result
      messages, and whether some result asks the loop to go on. */
  datatype Watch =
    | Broken
    | Watch(
        phase: Phase,
        messages: seq<Message>,
        added: seq<Message>,
        owed: seq<Message>,
        open: Option<Message>,
        reply: AssistantMessage,
        begun: nat,
        waiting: multiset<string>,
        running: multiset<string>,
        results: seq<Message>,
        continuing: bool)

  const NO_REPLY: AssistantMessage := PlainReply([], NO_ORIGIN, NO_USAGE, Stop, None)

  function Initial(messages: seq<Message>, prompts: seq<Message>): Watch {
    Watch(Fresh, messages, [], prompts, None, NO_REPLY, 0, multiset{}, multiset{}, [], false)
  }

  predicate IsResultFor(m: Message, call: ToolCall) {
    m.ToolResult? && m.toolCallId == call.id && m.toolName == call.name
  }

  predicate Idle(w: Watch) {
    w.Watch? && w.open.None? && w.waiting == multiset{} && w.running == multiset{}
  }

  /** A failed turn runs no tools; any other runs at least one if it is asked to, and all of them unless aborted. */
  predicate TurnComplete(rules: Rules, w: Watch)
    requires w.Watch?
  {
    && |w.results| == w.begun
    && var calls := ToolCalls(w.reply.content);
       if Failed(w.reply) then w.begun == 0
       else (calls != [] ==> w.begun > 0) && (rules.exact ==> w.begun == |calls|)
  }

  predicate MayStart(w: Watch, m: Message)
    requires w.Watch?
  {
    match w.phase
    case Opening => w.owed != [] && m == w.owed[0]
    case Calling => m.Assistant?
    case Acting =>
      var calls := ToolCalls(w.reply.content);
      |w.results| < w.begun <= |calls| && IsResultFor(m, calls[|w.results|])
    case _ => false
  }

  function Noted(w: Watch, m: Message): (w': Watch)
    requires w.Watch?
    ensures w'.Watch?
  {
    w.(messages := w.messages + [m], added := w.added + [m], open := None)
  }

  function StepEvent(rules: Rules, w: Watch, e: AgentEvent): Watch
    requires w.Watch?
  {
    match e
    case AgentStart =>
      if w.phase.Fresh? then w.(phase := Started) else Broken
    case TurnStart =>
      if Idle(w) && (w.phase.Started? || (w.phase.Between? && (w.continuing || w.owed != [])))
      then w.(phase := Opening, continuing := false) else Broken
    case MessageStart(m) =>
      if Idle(w) && MayStart(w, m) then w.(open := Some(m)) else Broken
    case MessageUpdate(m) =>
      if w.phase.Calling? && w.open.Some? && m.Assistant? then w.(open := Some(m)) else Broken
    case MessageEnd(m) =>
      if w.phase.Opening? && w.open == Some(m) && w.owed != [] then Noted(w, m).(owed := w.owed[1..])
      else if w.phase.Calling? && w.open.Some? && m.Assistant? then
        Noted(w, m).(phase := Acting, reply := m.reply, begun := 0, results := [])
      else if w.phase.Acting? && w.open == Some(m) then Noted(w, m).(results := w.results + [m])
      else Broken
    case ToolStart(id, name, args) =>
      var calls := ToolCalls(w.reply.content);
      if w.phase.Acting? && w.open.None? && !Failed(w.reply) && w.begun < |calls|
         && id == calls[w.begun].id && name == calls[w.begun].name && args == calls[w.begun].arguments
      then w.(begun := w.begun + 1, waiting := w.waiting + multiset{id})
      else Broken
    case ToolUpdate(id, _, _, _) =>
      if w.phase.Acting? && w.open.None? && id in w.running then w else Broken
    case ToolEnd(id, _, result, _) =>
      if !w.phase.Acting? || w.open.Some? then Broken
      else
        var w' := w.(continuing := w.continuing || result.terminate != Some(true));
        if id in w.waiting then w'.(waiting := w.waiting - multiset{id})
        else if id in w.running then w'.(running := w.running - multiset{id})
        else Broken
    case TurnEnd(m, results) =>
      if w.phase.Acting? && Idle(w) && m == Assistant(w.reply) && results == w.results && TurnComplete(rules, w)
      then w.(phase := if Failed(w.reply) then Closing else Between)
      else Broken
    case AgentEnd(messages) =>
      if (w.phase.Between? || w.phase.Closing?) && Idle(w) && w.owed == [] && messages == w.added then w.(phase := Over)
      else Broken
  }

  /** The hooks around a call are handed the transcript without the results of the turn, shown though they may be. */
  predicate MayHandOut(rules: Rules, w: Watch, context: seq<Message>)
    requires w.Watch?
  {
    rules.mirrored ==> context + w.results == w.messages
  }

  function Step(rules: Rules, w: Watch, x: Interaction): Watch {
    if w.Broken? then Broken
    else match x
      case Emit(e) => StepEvent(rules, w, e)
      case LlmCall(context) =>
        if w.phase.Opening? && w.open.None? && w.owed == [] && (rules.mirrored ==> context == w.messages)
        then w.(phase := Calling) else Broken
      case ConsultBefore(id, context) =>
        if w.phase.Acting? && w.open.None? && id in w.waiting && MayHandOut(rules, w, context) then w else Broken
      case ConsultAfter(id, context) =>
        if w.phase.Acting? && w.open.None? && id in w.running && MayHandOut(rules, w, context) then w else Broken
      case Execute(id, _) =>
        if w.phase.Acting? && w.open.None? && id in w.waiting
        then w.(waiting := w.waiting - multiset{id}, running := w.running + multiset{id}) else Broken
      case Consult(m, results, context, newMessages) =>
        if w.phase.Between? && m == Assistant(w.reply) && results == w.results && newMessages == w.added
           && (rules.mirrored ==> context == w.messages)
        then w else Broken
      case PollSteering(ms) =>
        if (w.phase.Between? || w.phase.Opening?) && w.open.None? && w.owed == [] then w.(owed := ms) else Broken
      case PollFollowUp(ms) =>
        if w.phase.Between? && w.owed == [] && !w.continuing then w.(owed := ms) else Broken
  }

  /** The observer at the end of a log. */
  function Observe(rules: Rules, w: Watch, log: seq<Interaction>): Watch {
    if log == [] then w
    else Step(rules, Observe(rules, w, log[..|log| - 1]), log[|log| - 1])
  }

  /** The observer has seen nothing out of line. */
  predicate Accepts(rules: Rules, w: Watch, log: seq<Interaction>) {
    Observe(rules, w, log).Watch?
  }
}
