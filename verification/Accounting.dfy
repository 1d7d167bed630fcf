/** Conservation of messages, and how often the provider is called. */
module Accounting {
  import opened Types
  import opened AgentState
  import opened Protocol
  import opened Guarantees
  import opened Transcripts

  // ----- Messages -----

  /** All messages drained by the polls, in order. */
  function Drained(log: seq<Interaction>): seq<Message> {
    if log == [] then [] else Drained(log[..|log| - 1]) + Polled(log[|log| - 1])
  }

  /** The turn has not yet come to its provider call. */
  predicate BeforeCall(log: seq<Interaction>) {
    log != [] &&
    match log[|log| - 1]
    case LlmCall(_) => false
    case Emit(TurnStart) => true
    case _ => BeforeCall(log[..|log| - 1])
  }

  /** The messages shown before the provider calls of their turns: prompts and queued messages. */
  function InjectedMessages(log: seq<Interaction>): seq<Message> {
    if log == [] then []
    else
      var front, x := log[..|log| - 1], log[|log| - 1];
      InjectedMessages(front) + if x.Emit? && x.event.MessageEnd? && BeforeCall(front) then [x.event.message] else []
  }

  /** The messages completed since the turn began, and those of them injected. */
  function TurnMessages(log: seq<Interaction>): seq<Message> {
    if log == [] || log[|log| - 1] == Emit(TurnStart) then []
    else
      var x := log[|log| - 1];
      TurnMessages(log[..|log| - 1]) + if x.Emit? && x.event.MessageEnd? then [x.event.message] else []
  }

  function TurnInjected(log: seq<Interaction>): seq<Message> {
    if log == [] || log[|log| - 1] == Emit(TurnStart) then []
    else
      var front, x := log[..|log| - 1], log[|log| - 1];
      TurnInjected(front) + if x.Emit? && x.event.MessageEnd? && BeforeCall(front) then [x.event.message] else []
  }

  lemma Snoc(log: seq<Interaction>, x: Interaction)
    ensures Drained(log + [x]) == Drained(log) + Polled(x)
    ensures BeforeCall(log + [x]) == if x.LlmCall? then false else if x == Emit(TurnStart) then true else BeforeCall(log)
    ensures Completed(Events(log + [x])) == Completed(Events(log)) + Shown(x)
    ensures InjectedMessages(log + [x]) == InjectedMessages(log) + if BeforeCall(log) then Shown(x) else []
    ensures TurnMessages(log + [x]) == if x == Emit(TurnStart) then [] else TurnMessages(log) + Shown(x)
    ensures TurnInjected(log + [x])
         == if x == Emit(TurnStart) then [] else TurnInjected(log) + if BeforeCall(log) then Shown(x) else []
  {
    assert (log + [x])[..|log|] == log;
    if x.Emit? {
      assert (Events(log) + [x.event])[..|Events(log)|] == Events(log);
    } else {
      assert Events(log) + [] == Events(log);
      assert Completed(Events(log)) + [] == Completed(Events(log));
    }
  }

  function Shown(x: Interaction): seq<Message> {
    if x.Emit? && x.event.MessageEnd? then [x.event.message] else []
  }

  /** The observer's books. */
  ghost predicate Balanced(w: Watch, prompts: seq<Message>, log: seq<Interaction>) {
    && Sane(w)
    && w.added == Completed(Events(log))
    && InjectedMessages(log) + w.owed == prompts + Drained(log)
    && (BeforeCall(log) <==> w.phase.Opening?)
    && (w.phase.Opening? || w.phase.Calling? ==> TurnMessages(log) == TurnInjected(log))
    && (w.phase.Acting? ==> TurnMessages(log) == TurnInjected(log) + [Assistant(w.reply)] + w.results)
  }

  lemma BalancedMessageEnd(rules: Rules, w: Watch, prompts: seq<Message>, log: seq<Interaction>, x: Interaction)
    requires Balanced(w, prompts, log) && Protocol.Step(rules, w, x).Watch?
    requires x.Emit? && x.event.MessageEnd?
    ensures Balanced(Protocol.Step(rules, w, x), prompts, log + [x])
  {
    hide Protocol.Step, InjectedMessages, Drained, Completed, Events, BeforeCall, TurnMessages, TurnInjected;
    var m := x.event.message;
    SaneStep(rules, w, x);
    MessageStep(rules, w, x);
    Snoc(log, x);
    assert Drained(log) + [] == Drained(log);
    assert InjectedMessages(log) + [] == InjectedMessages(log) && TurnInjected(log) + [] == TurnInjected(log);
    match w.phase {
      case Opening => assert InjectedMessages(log) + w.owed == InjectedMessages(log) + [m] + w.owed[1..];
      case Calling => assert TurnInjected(log) + [m] == TurnInjected(log) + [m] + [];
      case Acting =>
        Associate(TurnInjected(log) + [Assistant(w.reply)], w.results, [m]);
      case _ =>
    }
  }

  lemma BalancedStep(rules: Rules, w: Watch, prompts: seq<Message>, log: seq<Interaction>, x: Interaction)
    requires Balanced(w, prompts, log) && Protocol.Step(rules, w, x).Watch?
    ensures Balanced(Protocol.Step(rules, w, x), prompts, log + [x])
  {
    hide Protocol.Step, InjectedMessages, Drained, Completed, Events, BeforeCall, TurnMessages, TurnInjected;
    if x.Emit? && x.event.MessageEnd? {
      BalancedMessageEnd(rules, w, prompts, log, x);
    } else {
      SaneStep(rules, w, x);
      Snoc(log, x);
      SameBooks(w, prompts, log, x);
      if IsToolStep(x) {
        ToolStep(rules, w, x);
      } else if IsMessageStep(x) {
        MessageStep(rules, w, x);
      } else {
        FrameStep(rules, w, x);
      }
    }
  }

  lemma SameBooks(w: Watch, prompts: seq<Message>, log: seq<Interaction>, x: Interaction)
    ensures Drained(log) + [] == Drained(log) && InjectedMessages(log) + [] == InjectedMessages(log)
    ensures TurnMessages(log) + [] == TurnMessages(log) && TurnInjected(log) + [] == TurnInjected(log)
    ensures Completed(Events(log)) + [] == Completed(Events(log))
    ensures w.Watch? && InjectedMessages(log) + w.owed == prompts + Drained(log) && w.owed == [] ==>
              InjectedMessages(log) + Polled(x) == prompts + (Drained(log) + Polled(x))
  {
    if w.Watch? && InjectedMessages(log) + w.owed == prompts + Drained(log) && w.owed == [] {
      assert InjectedMessages(log) == prompts + Drained(log);
      Associate(prompts, Drained(log), Polled(x));
    }
  }

  lemma {:induction false} AlwaysBalanced(
      rules: Rules, messages: seq<Message>, prompts: seq<Message>, log: seq<Interaction>)
    requires Accepts(rules, Initial(messages, prompts), log)
    ensures Balanced(Observe(rules, Initial(messages, prompts), log), prompts, log)
  {
    hide Protocol.Step, Balanced;
    var w := Initial(messages, prompts);
    if log == [] {
      BalancedAtFirst(messages, prompts);
    } else {
      var front, x := log[..|log| - 1], log[|log| - 1];
      PrefixAccepted(rules, w, log, |log| - 1);
      AlwaysBalanced(rules, messages, prompts, front);
      BalancedStep(rules, Observe(rules, w, front), prompts, front, x);
      assert front + [x] == log;
    }
  }

  lemma BalancedAtFirst(messages: seq<Message>, prompts: seq<Message>)
    ensures Balanced(Initial(messages, prompts), prompts, [])
  {
    assert prompts + [] == prompts && [] + prompts == prompts;
  }

  /** Conservation: what `agent_end` and the hooks report as new messages is what was shown as completed, in order; a
      turn consists of its injected messages, its assistant message, and the results its `turn_end` carries; and when
      the provider is called and when the run is over, the messages injected are exactly the prompts and everything
      drained from the queues, each once and in order. */
  lemma MessagesAreConserved(
      rules: Rules, messages: seq<Message>, prompts: seq<Message>, log: seq<Interaction>, k: nat)
    requires Accepts(rules, Initial(messages, prompts), log) && k < |log|
    ensures match log[k]
            case Emit(AgentEnd(newMessages)) =>
              && newMessages == Completed(Events(log[..k]))
              && InjectedMessages(log[..k]) == prompts + Drained(log[..k])
            case Consult(_, _, _, newMessages) => newMessages == Completed(Events(log[..k]))
            case LlmCall(_) => InjectedMessages(log[..k]) == prompts + Drained(log[..k])
            case Emit(TurnEnd(m, results)) => TurnMessages(log[..k]) == TurnInjected(log[..k]) + [m] + results
            case _ => true
  {
    hide ToolCalls, InjectedMessages, Drained, Completed, Events, BeforeCall, TurnMessages, TurnInjected, Sane,
         TurnComplete;
    PrefixAccepted(rules, Initial(messages, prompts), log, k);
    AlwaysBalanced(rules, messages, prompts, log[..k]);
    assert InjectedMessages(log[..k]) + [] == InjectedMessages(log[..k]);
  }

  /** What is injected is completed, and so in the transcript. */
  lemma {:induction false} InjectedAreCompleted(log: seq<Interaction>)
    ensures multiset(InjectedMessages(log)) <= multiset(Completed(Events(log)))
  {
    hide BeforeCall, Completed, Events, InjectedMessages;
    if log == [] {
      NothingInjected();
    } else {
      var front, x := log[..|log| - 1], log[|log| - 1];
      assert front + [x] == log;
      InjectedAreCompleted(front);
      Snoc(front, x);
    }
  }

  lemma NothingInjected()
    ensures InjectedMessages([]) == []
  {
  }

  // ----- What is still to be injected -----

  /** The messages that the last poll was answered with; before any poll, the prompts. */
  function LastAnnounced(prompts: seq<Message>, log: seq<Interaction>): seq<Message> {
    if log == [] then prompts
    else
      match log[|log| - 1]
      case PollSteering(ms) => ms
      case PollFollowUp(ms) => ms
      case _ => LastAnnounced(prompts, log[..|log| - 1])
  }

  /** How many messages have been completed since the last poll; before any poll, since the beginning. */
  function EndsSince(log: seq<Interaction>): nat {
    if log == [] then 0
    else
      var x := log[|log| - 1];
      if x.PollSteering? || x.PollFollowUp? then 0 else EndsSince(log[..|log| - 1]) + |Shown(x)|
  }

  /** What is left of a sequence behind its first `n` elements. */
  function Behind<T>(s: seq<T>, n: nat): seq<T> {
    if n <= |s| then s[n..] else []
  }

  ghost predicate Owing(w: Watch, prompts: seq<Message>, log: seq<Interaction>) {
    Sane(w) && w.owed == Behind(LastAnnounced(prompts, log), EndsSince(log))
  }

  lemma AnnouncedSnoc(prompts: seq<Message>, log: seq<Interaction>, x: Interaction)
    ensures x.PollSteering? || x.PollFollowUp? ==>
              LastAnnounced(prompts, log + [x]) == x.messages && EndsSince(log + [x]) == 0
    ensures !x.PollSteering? && !x.PollFollowUp? ==>
              && LastAnnounced(prompts, log + [x]) == LastAnnounced(prompts, log)
              && EndsSince(log + [x]) == EndsSince(log) + |Shown(x)|
  {
    assert (log + [x])[..|log|] == log;
  }

  lemma OwingStep(rules: Rules, w: Watch, prompts: seq<Message>, log: seq<Interaction>, x: Interaction)
    requires Owing(w, prompts, log) && Protocol.Step(rules, w, x).Watch?
    ensures Owing(Protocol.Step(rules, w, x), prompts, log + [x])
  {
    hide Protocol.Step, LastAnnounced, EndsSince;
    SaneStep(rules, w, x);
    AnnouncedSnoc(prompts, log, x);
    if IsToolStep(x) {
      ToolStep(rules, w, x);
    } else if IsMessageStep(x) {
      MessageStep(rules, w, x);
    } else {
      FrameStep(rules, w, x);
    }
  }

  /** What is still to be injected is what is left of the last announcement behind as many messages as have been
      completed since. */
  lemma {:induction false} AlwaysOwing(
      rules: Rules, messages: seq<Message>, prompts: seq<Message>, log: seq<Interaction>)
    requires Accepts(rules, Initial(messages, prompts), log)
    ensures Owing(Observe(rules, Initial(messages, prompts), log), prompts, log)
  {
    hide Protocol.Step, Owing;
    var w := Initial(messages, prompts);
    if log == [] {
      OwingAtFirst(messages, prompts);
    } else {
      var front, x := log[..|log| - 1], log[|log| - 1];
      PrefixAccepted(rules, w, log, |log| - 1);
      AlwaysOwing(rules, messages, prompts, front);
      OwingStep(rules, Observe(rules, w, front), prompts, front, x);
      assert front + [x] == log;
    }
  }

  lemma OwingAtFirst(messages: seq<Message>, prompts: seq<Message>)
    ensures Owing(Initial(messages, prompts), prompts, [])
  {
  }

  // ----- Turn by turn -----

  /** What a turn that has ended contributed. */
  datatype ClosedTurn = ClosedTurn(injected: seq<Message>, reply: Message, results: seq<Message>)

  function ClosedTurns(log: seq<Interaction>): seq<ClosedTurn> {
    if log == [] then []
    else
      var front := log[..|log| - 1];
      match log[|log| - 1]
      case Emit(TurnEnd(m, results)) => ClosedTurns(front) + [ClosedTurn(TurnInjected(front), m, results)]
      case _ => ClosedTurns(front)
  }

  function MessagesOf(turns: seq<ClosedTurn>): seq<Message> {
    if turns == [] then []
    else
      var t := turns[|turns| - 1];
      MessagesOf(turns[..|turns| - 1]) + (t.injected + [t.reply] + t.results)
  }

  ghost predicate Factored(w: Watch, log: seq<Interaction>) {
    && w.Watch?
    && w.added == MessagesOf(ClosedTurns(log)) + if InTurn(w) then TurnMessages(log) else []
  }

  lemma ClosedSnoc(log: seq<Interaction>, x: Interaction)
    ensures MessagesOf(ClosedTurns(log + [x]))
         == MessagesOf(ClosedTurns(log))
              + if x.Emit? && x.event.TurnEnd? then TurnInjected(log) + [x.event.message] + x.event.toolResults else []
  {
    hide TurnInjected;
    assert (log + [x])[..|log|] == log;
    if x.Emit? && x.event.TurnEnd? {
      var turns, t := ClosedTurns(log), ClosedTurn(TurnInjected(log), x.event.message, x.event.toolResults);
      assert (turns + [t])[..|turns|] == turns;
    } else {
      assert MessagesOf(ClosedTurns(log)) + [] == MessagesOf(ClosedTurns(log));
    }
  }

  lemma FactoredStep(rules: Rules, w: Watch, prompts: seq<Message>, log: seq<Interaction>, x: Interaction)
    requires Balanced(w, prompts, log) && Factored(w, log) && Protocol.Step(rules, w, x).Watch?
    ensures Factored(Protocol.Step(rules, w, x), log + [x])
  {
    hide Protocol.Step, MessagesOf, ClosedTurns, InjectedMessages, Drained, Completed, Events, BeforeCall, TurnMessages,
         TurnInjected;
    Snoc(log, x);
    ClosedSnoc(log, x);
    var before := MessagesOf(ClosedTurns(log));
    assert before + [] == before && TurnMessages(log) + [] == TurnMessages(log);
    if IsToolStep(x) {
      ToolStep(rules, w, x);
    } else if IsMessageStep(x) {
      MessageStep(rules, w, x);
      Associate(before, TurnMessages(log), Shown(x));
    } else {
      FrameStep(rules, w, x);
    }
  }

  lemma {:induction false} AlwaysFactored(
      rules: Rules, messages: seq<Message>, prompts: seq<Message>, log: seq<Interaction>)
    requires Accepts(rules, Initial(messages, prompts), log)
    ensures Factored(Observe(rules, Initial(messages, prompts), log), log)
  {
    hide Protocol.Step, Balanced, Factored;
    var w := Initial(messages, prompts);
    if log == [] {
      FactoredAtFirst(messages, prompts);
    } else {
      var front, x := log[..|log| - 1], log[|log| - 1];
      PrefixAccepted(rules, w, log, |log| - 1);
      AlwaysBalanced(rules, messages, prompts, front);
      AlwaysFactored(rules, messages, prompts, front);
      FactoredStep(rules, Observe(rules, w, front), prompts, front, x);
      assert front + [x] == log;
    }
  }

  lemma FactoredAtFirst(messages: seq<Message>, prompts: seq<Message>)
    ensures Factored(Initial(messages, prompts), [])
  {
  }

  /** The new messages, wherever they are handed out, are for each turn so far the messages injected, the assistant
      message, and the results its `turn_end` carries. */
  lemma NewMessagesFactor(
      rules: Rules, messages: seq<Message>, prompts: seq<Message>, log: seq<Interaction>, k: nat)
    requires Accepts(rules, Initial(messages, prompts), log) && k < |log|
    ensures match log[k]
            case Emit(AgentEnd(newMessages)) => newMessages == MessagesOf(ClosedTurns(log[..k]))
            case Consult(_, _, _, newMessages) => newMessages == MessagesOf(ClosedTurns(log[..k]))
            case _ => true
  {
    hide Protocol.Step, MessagesOf, ClosedTurns, Observe;
    var w := Observe(rules, Initial(messages, prompts), log[..k]);
    PrefixAccepted(rules, Initial(messages, prompts), log, k);
    AlwaysFactored(rules, messages, prompts, log[..k]);
    assert MessagesOf(ClosedTurns(log[..k])) + [] == MessagesOf(ClosedTurns(log[..k]));
    if !IsToolStep(log[k]) && !IsMessageStep(log[k]) {
      FrameStep(rules, w, log[k]);
    }
  }

  // ----- Provider calls -----

  function LlmCalls(log: seq<Interaction>): nat {
    if log == [] then 0 else LlmCalls(log[..|log| - 1]) + if log[|log| - 1].LlmCall? then 1 else 0
  }

  /** Some tool result of the turn does not ask to terminate. */
  predicate Pressing(log: seq<Interaction>) {
    log != [] &&
    match log[|log| - 1]
    case Emit(TurnStart) => false
    case Emit(ToolEnd(_, _, result, _)) => result.terminate != Some(true) || Pressing(log[..|log| - 1])
    case _ => Pressing(log[..|log| - 1])
  }

  /** The turns ended whose tool batch did not terminate. */
  function ContinuingTurns(log: seq<Interaction>): nat {
    if log == [] then 0
    else
      var front, x := log[..|log| - 1], log[|log| - 1];
      ContinuingTurns(front) + if x.Emit? && x.event.TurnEnd? && Pressing(front) then 1 else 0
  }

  /** Every call but the first is paid for in advance, by a batch that goes on or by a message drained. */
  ghost predicate Solvent(w: Watch, log: seq<Interaction>) {
    && Sane(w)
    && w.continuing == Pressing(log)
    && var credit := 1 + ContinuingTurns(log) + |Drained(log)|;
       match w.phase
       case Fresh => LlmCalls(log) == 0
       case Started => LlmCalls(log) == 0
       case Opening => LlmCalls(log) < credit
       case Between => LlmCalls(log) + (if w.continuing then 1 else 0) + |w.owed| <= credit
       case _ => LlmCalls(log) <= credit
  }

  lemma CallsSnoc(log: seq<Interaction>, x: Interaction)
    ensures LlmCalls(log + [x]) == LlmCalls(log) + if x.LlmCall? then 1 else 0
    ensures |Drained(log + [x])| == |Drained(log)| + |Polled(x)|
    ensures Pressing(log + [x])
         == if x == Emit(TurnStart) then false
            else (x.Emit? && x.event.ToolEnd? && x.event.result.terminate != Some(true)) || Pressing(log)
    ensures ContinuingTurns(log + [x])
         == ContinuingTurns(log) + if x.Emit? && x.event.TurnEnd? && Pressing(log) then 1 else 0
  {
    assert (log + [x])[..|log|] == log;
  }

  lemma Presses(rules: Rules, w: Watch, x: Interaction)
    requires w.Watch? && IsToolStep(x) && Protocol.Step(rules, w, x).Watch?
    ensures Protocol.Step(rules, w, x).continuing
         == (w.continuing || (x.Emit? && x.event.ToolEnd? && x.event.result.terminate != Some(true)))
  {
    hide ToolCalls;
  }

  lemma SolventStep(rules: Rules, w: Watch, log: seq<Interaction>, x: Interaction)
    requires Solvent(w, log) && Protocol.Step(rules, w, x).Watch?
    ensures Solvent(Protocol.Step(rules, w, x), log + [x])
  {
    hide Protocol.Step, LlmCalls, Drained, Pressing, ContinuingTurns;
    SaneStep(rules, w, x);
    CallsSnoc(log, x);
    if IsToolStep(x) {
      ToolStep(rules, w, x);
      Presses(rules, w, x);
    } else if IsMessageStep(x) {
      MessageStep(rules, w, x);
    } else {
      FrameStep(rules, w, x);
    }
  }

  lemma {:induction false} AlwaysSolvent(rules: Rules, w: Watch, log: seq<Interaction>)
    requires Solvent(w, []) && Accepts(rules, w, log)
    ensures Solvent(Observe(rules, w, log), log)
  {
    hide Protocol.Step, Solvent;
    if log != [] {
      var front, x := log[..|log| - 1], log[|log| - 1];
      PrefixAccepted(rules, w, log, |log| - 1);
      AlwaysSolvent(rules, w, front);
      SolventStep(rules, Observe(rules, w, front), front, x);
      assert front + [x] == log;
    }
  }

  /** The provider is called at most once more than there are turns whose batch goes on and messages drained: the loop
      terminates whenever these are finite. */
  lemma CallsAreBounded(rules: Rules, messages: seq<Message>, prompts: seq<Message>, log: seq<Interaction>)
    requires Accepts(rules, Initial(messages, prompts), log)
    ensures LlmCalls(log) <= 1 + ContinuingTurns(log) + |Drained(log)|
  {
    hide LlmCalls, Drained, Pressing, ContinuingTurns;
    SolventAtFirst(messages, prompts);
    AlwaysSolvent(rules, Initial(messages, prompts), log);
  }

  lemma SolventAtFirst(messages: seq<Message>, prompts: seq<Message>)
    ensures Solvent(Initial(messages, prompts), [])
  {
  }
}
