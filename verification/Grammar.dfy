/** The shape of a run's trace and of the transcripts it hands to the provider. */
module Grammar {
  import opened Types
  import opened Protocol
  import opened Guarantees

  // ----- The trace -----

  /** Turns, and messages, begun and not yet ended. */
  function OpenTurns(log: seq<Interaction>): int {
    if log == [] then 0
    else
      var x := log[|log| - 1];
      OpenTurns(log[..|log| - 1]) + if x == Emit(TurnStart) then 1 else if x.Emit? && x.event.TurnEnd? then -1 else 0
  }

  function OpenMessages(log: seq<Interaction>): int {
    if log == [] then 0
    else
      var x := log[|log| - 1];
      OpenMessages(log[..|log| - 1])
        + if x.Emit? && x.event.MessageStart? then 1 else if x.Emit? && x.event.MessageEnd? then -1 else 0
  }

  /** Assistant messages completed, and turns ended. */
  function Replies(log: seq<Interaction>): int {
    if log == [] then 0
    else
      var x := log[|log| - 1];
      Replies(log[..|log| - 1]) + if x.Emit? && x.event.MessageEnd? && x.event.message.Assistant? then 1 else 0
  }

  function TurnsEnded(log: seq<Interaction>): int {
    if log == [] then 0
    else
      var x := log[|log| - 1];
      TurnsEnded(log[..|log| - 1]) + if x.Emit? && x.event.TurnEnd? then 1 else 0
  }

  ghost predicate Shaped(w: Watch, log: seq<Interaction>) {
    && w.Watch?
    && OpenTurns(log) == (if InTurn(w) then 1 else 0)
    && OpenMessages(log) == (if w.open.Some? then 1 else 0)
    && (w.phase.Fresh? <==> log == [])
    && (w.phase.Over? <==> log != [] && log[|log| - 1].Emit? && log[|log| - 1].event.AgentEnd?)
    && TurnsEnded(log) >= 0
    && (w.phase.Between? || w.phase.Closing? || w.phase.Over? ==> TurnsEnded(log) > 0)
  }

  lemma ShapedStep(rules: Rules, w: Watch, log: seq<Interaction>, x: Interaction)
    requires Sane(w) && Shaped(w, log) && Protocol.Step(rules, w, x).Watch?
    ensures Shaped(Protocol.Step(rules, w, x), log + [x])
  {
    hide Protocol.Step, OpenTurns, OpenMessages, TurnsEnded;
    CountsSnoc(log, x);
    if IsToolStep(x) {
      ToolStep(rules, w, x);
    } else if IsMessageStep(x) {
      MessageStep(rules, w, x);
      MessageOpens(rules, w, x);
    } else {
      FrameStep(rules, w, x);
    }
  }

  lemma MessageOpens(rules: Rules, w: Watch, x: Interaction)
    requires w.Watch? && IsMessageStep(x) && Protocol.Step(rules, w, x).Watch?
    ensures w.open.Some? <==> !x.event.MessageStart?
    ensures Protocol.Step(rules, w, x).open.Some? <==> !x.event.MessageEnd?
  {
    hide ToolCalls, MayStart;
  }

  lemma CountsSnoc(log: seq<Interaction>, x: Interaction)
    ensures OpenTurns(log + [x])
         == OpenTurns(log) + if x == Emit(TurnStart) then 1 else if x.Emit? && x.event.TurnEnd? then -1 else 0
    ensures OpenMessages(log + [x])
         == OpenMessages(log)
              + if x.Emit? && x.event.MessageStart? then 1 else if x.Emit? && x.event.MessageEnd? then -1 else 0
    ensures TurnsEnded(log + [x]) == TurnsEnded(log) + if x.Emit? && x.event.TurnEnd? then 1 else 0
    ensures Replies(log + [x])
         == Replies(log) + if x.Emit? && x.event.MessageEnd? && x.event.message.Assistant? then 1 else 0
  {
    assert (log + [x])[..|log|] == log;
  }

  lemma {:induction false} AlwaysShaped(
      rules: Rules, messages: seq<Message>, prompts: seq<Message>, log: seq<Interaction>)
    requires Accepts(rules, Initial(messages, prompts), log)
    ensures Sane(Observe(rules, Initial(messages, prompts), log))
    ensures Shaped(Observe(rules, Initial(messages, prompts), log), log)
  {
    hide Protocol.Step, Shaped;
    var w := Initial(messages, prompts);
    AlwaysSane(rules, w, log);
    if log == [] {
      ShapedAtFirst(messages, prompts);
    } else {
      var front, x := log[..|log| - 1], log[|log| - 1];
      PrefixAccepted(rules, w, log, |log| - 1);
      AlwaysShaped(rules, messages, prompts, front);
      ShapedStep(rules, Observe(rules, w, front), front, x);
      assert front + [x] == log;
    }
  }

  lemma ShapedAtFirst(messages: seq<Message>, prompts: seq<Message>)
    ensures Shaped(Initial(messages, prompts), [])
  {
  }

  /** What may stand at a given place of a trace, given what came before. */
  ghost predicate InPlace(before: seq<Interaction>, x: Interaction, last: bool) {
    match x
    case Emit(AgentStart) => before == []
    case Emit(AgentEnd(_)) => last && OpenTurns(before) == 0 && OpenMessages(before) == 0 && TurnsEnded(before) > 0
    case Emit(TurnStart) => before != [] && OpenTurns(before) == 0 && OpenMessages(before) == 0
    case Emit(TurnEnd(_, _)) => OpenTurns(before) == 1 && OpenMessages(before) == 0
    case Emit(MessageStart(_)) => OpenTurns(before) == 1 && OpenMessages(before) == 0
    case Emit(MessageUpdate(_)) => OpenTurns(before) == 1 && OpenMessages(before) == 1
    case Emit(MessageEnd(_)) => OpenTurns(before) == 1 && OpenMessages(before) == 1
    case Emit(_) => OpenTurns(before) == 1 && OpenMessages(before) == 0
    case LlmCall(_) => OpenTurns(before) == 1 && OpenMessages(before) == 0
    case ConsultBefore(_, _) => OpenTurns(before) == 1 && OpenMessages(before) == 0
    case Execute(_, _) => OpenTurns(before) == 1 && OpenMessages(before) == 0
    case ConsultAfter(_, _) => OpenTurns(before) == 1 && OpenMessages(before) == 0
    case _ => before != []
  }

  /** The trace grammar: `agent_start` first and only there; turns properly bracketed and not nested; messages shown
      one at a time and within turns; tool events within turns and between messages; `agent_end` last and only there,
      behind at least one completed turn. */
  lemma TraceGrammar(rules: Rules, messages: seq<Message>, prompts: seq<Message>, log: seq<Interaction>, k: nat)
    requires Accepts(rules, Initial(messages, prompts), log) && k < |log|
    ensures InPlace(log[..k], log[k], k == |log| - 1)
    ensures k == 0 ==> log[k] == Emit(AgentStart)
    ensures Observe(rules, Initial(messages, prompts), log).phase.Over? <==>
              log[|log| - 1].Emit? && log[|log| - 1].event.AgentEnd?
  {
    var w := Initial(messages, prompts);
    PrefixAccepted(rules, w, log, k);
    AlwaysShaped(rules, messages, prompts, log[..k]);
    AlwaysShaped(rules, messages, prompts, log);
    if log[k].Emit? && log[k].event.AgentEnd? && k + 1 < |log| {
      PrefixAccepted(rules, w, log, k + 1);
      NothingAfterTheEnd(rules, w, log, k);
    }
  }

  lemma NothingAfterTheEnd(rules: Rules, w: Watch, log: seq<Interaction>, k: nat)
    requires k + 1 < |log| && log[k].Emit? && log[k].event.AgentEnd?
    ensures Protocol.Step(rules, Observe(rules, w, log[..k + 1]), log[k + 1]).Broken?
  {
    assert log[..k + 1][..k] == log[..k] && log[..k + 1][k] == log[k];
  }
}
