/** What the provider gets to see: transcripts that never end in an assistant message, and in which every
    assistant message of the run is followed by the results of its calls. */
module Transcripts {
  import opened Types
  import opened AgentState
  import opened Protocol
  import opened Guarantees
  import opened Grammar

  ghost predicate NotAssistant(ms: seq<Message>) {
    forall k :: 0 <= k < |ms| ==> !ms[k].Assistant?
  }

  /** Messages as users and applications write them. */
  ghost predicate Plain(ms: seq<Message>) {
    forall k :: 0 <= k < |ms| ==> ms[k].User? || ms[k].Custom?
  }

  function Polled(x: Interaction): seq<Message> {
    match x
    case PollSteering(ms) => ms
    case PollFollowUp(ms) => ms
    case _ => []
  }

  ghost predicate PollsWithoutAssistant(log: seq<Interaction>) {
    forall k :: 0 <= k < |log| ==> NotAssistant(Polled(log[k]))
  }

  ghost predicate PlainPolls(log: seq<Interaction>) {
    forall k :: 0 <= k < |log| ==> Plain(Polled(log[k]))
  }

  // ----- The last message -----

  predicate EndsWell(ms: seq<Message>) {
    ms != [] && !ms[|ms| - 1].Assistant?
  }

  /** Whenever the provider may be called again, there is or will be something new to answer. */
  ghost predicate Answerable(w: Watch) {
    && Sane(w)
    && NotAssistant(w.owed)
    && (w.phase.Fresh? || w.phase.Started? || w.phase.Opening? ==> w.owed != [] || EndsWell(w.messages))
    && (w.phase.Between? && w.continuing ==> EndsWell(w.messages))
    && (w.phase.Opening? || w.phase.Calling? ==> !w.continuing)
    && (w.phase.Acting? ==>
          && (w.results != [] ==> EndsWell(w.messages))
          && (w.begun == 0 ==> w.waiting == multiset{} && w.running == multiset{} && !w.continuing))
  }

  lemma AnswerableToolStep(rules: Rules, w: Watch, x: Interaction)
    requires Answerable(w) && Protocol.Step(rules, w, x).Watch? && IsToolStep(x)
    ensures Answerable(Protocol.Step(rules, w, x))
  {
    hide Protocol.Step, ToolCalls, EndsWell, NotAssistant;
    SaneStep(rules, w, x);
    ToolStep(rules, w, x);
    ToolStepIds(rules, w, x);
  }

  lemma AnswerableMessageStep(rules: Rules, w: Watch, x: Interaction)
    requires Answerable(w) && Protocol.Step(rules, w, x).Watch? && IsMessageStep(x)
    ensures Answerable(Protocol.Step(rules, w, x))
  {
    hide ToolCalls;
    SaneStep(rules, w, x);
  }

  lemma AnswerableStep(rules: Rules, w: Watch, x: Interaction)
    requires Answerable(w) && Protocol.Step(rules, w, x).Watch? && NotAssistant(Polled(x))
    ensures Answerable(Protocol.Step(rules, w, x))
  {
    if IsToolStep(x) {
      AnswerableToolStep(rules, w, x);
    } else if IsMessageStep(x) {
      AnswerableMessageStep(rules, w, x);
    } else {
      hide ToolCalls, EndsWell, NotAssistant;
      SaneStep(rules, w, x);
    }
  }

  lemma {:induction false} AlwaysAnswerable(rules: Rules, w: Watch, log: seq<Interaction>)
    requires Answerable(w) && Accepts(rules, w, log) && PollsWithoutAssistant(log)
    ensures Answerable(Observe(rules, w, log))
  {
    hide Protocol.Step, Answerable, NotAssistant;
    if log != [] {
      PrefixAccepted(rules, w, log, |log| - 1);
      AlwaysAnswerable(rules, w, log[..|log| - 1]);
      AnswerableStep(rules, Observe(rules, w, log[..|log| - 1]), log[|log| - 1]);
    }
  }

  /** If the run starts from nonempty prompts or from a legal continuation, and nobody prompts or queues an assistant
      message, then no transcript handed to the provider ends in one, over any number of turns. */
  lemma LastIsNeverAssistant(
      rules: Rules, messages: seq<Message>, prompts: seq<Message>, log: seq<Interaction>, k: nat)
    requires rules.mirrored && Accepts(rules, Initial(messages, prompts), log)
    requires NotAssistant(prompts) && PollsWithoutAssistant(log)
    requires prompts != [] || EndsWell(messages)
    requires k < |log| && log[k].LlmCall?
    ensures EndsWell(log[k].context)
  {
    hide EndsWell, NotAssistant;
    var w := Initial(messages, prompts);
    PrefixAccepted(rules, w, log, k);
    AlwaysAnswerable(rules, w, log[..k]);
  }

  // ----- Exactly one assistant message a turn -----

  ghost predicate OneReplyATurn(w: Watch, log: seq<Interaction>) {
    Sane(w) && NotAssistant(w.owed) && Replies(log) == TurnsEnded(log) + if w.phase.Acting? then 1 else 0
  }

  lemma OneReplyStep(rules: Rules, w: Watch, log: seq<Interaction>, x: Interaction)
    requires OneReplyATurn(w, log) && Protocol.Step(rules, w, x).Watch? && NotAssistant(Polled(x))
    ensures OneReplyATurn(Protocol.Step(rules, w, x), log + [x])
  {
    hide Protocol.Step, Replies, TurnsEnded;
    if IsToolStep(x) {
      hide NotAssistant;
      SaneStep(rules, w, x);
      CountsSnoc(log, x);
      ToolStep(rules, w, x);
    } else if IsMessageStep(x) {
      OneReplyMessageStep(rules, w, log, x);
    } else {
      hide NotAssistant;
      SaneStep(rules, w, x);
      CountsSnoc(log, x);
      FrameStep(rules, w, x);
    }
  }

  lemma OneReplyMessageStep(rules: Rules, w: Watch, log: seq<Interaction>, x: Interaction)
    requires OneReplyATurn(w, log) && Protocol.Step(rules, w, x).Watch? && IsMessageStep(x)
    ensures OneReplyATurn(Protocol.Step(rules, w, x), log + [x])
  {
    hide Protocol.Step, Replies, TurnsEnded;
    SaneStep(rules, w, x);
    CountsSnoc(log, x);
    MessageStep(rules, w, x);
    if x.event.MessageEnd? && w.phase.Opening? {
      assert !w.owed[0].Assistant?;
    }
  }

  lemma {:induction false} AlwaysOneReply(rules: Rules, w: Watch, log: seq<Interaction>)
    requires OneReplyATurn(w, []) && Accepts(rules, w, log) && PollsWithoutAssistant(log)
    ensures OneReplyATurn(Observe(rules, w, log), log)
  {
    hide Protocol.Step, OneReplyATurn, NotAssistant;
    if log != [] {
      var front, x := log[..|log| - 1], log[|log| - 1];
      PrefixAccepted(rules, w, log, |log| - 1);
      AlwaysOneReply(rules, w, front);
      OneReplyStep(rules, Observe(rules, w, front), front, x);
      assert front + [x] == log;
    }
  }

  /** Exactly one assistant message a turn: when the provider is called there have been as many as turns, and a turn
      ends with one more. */
  lemma OneAssistantMessagePerTurn(
      rules: Rules, messages: seq<Message>, prompts: seq<Message>, log: seq<Interaction>, k: nat)
    requires Accepts(rules, Initial(messages, prompts), log)
    requires NotAssistant(prompts) && PollsWithoutAssistant(log) && k < |log|
    ensures log[k].LlmCall? || log[k] == Emit(TurnStart) ==> Replies(log[..k]) == TurnsEnded(log[..k])
    ensures log[k].Emit? && log[k].event.TurnEnd? ==> Replies(log[..k]) == TurnsEnded(log[..k]) + 1
  {
    hide Replies, TurnsEnded, NotAssistant, ToolCalls;
    var w := Initial(messages, prompts);
    PrefixAccepted(rules, w, log, k);
    NothingYet(w);
    AlwaysOneReply(rules, w, log[..k]);
  }

  lemma NothingYet(w: Watch)
    requires Sane(w) && NotAssistant(w.owed) && !w.phase.Acting?
    ensures OneReplyATurn(w, [])
  {
  }

  // ----- Results follow their calls -----

  /** The assistant message at `i` is followed by the results of its first `n` calls, in source order, and by no
      further result: all calls if `exact`, and at least one if there are any. */
  ghost predicate FollowedBy(exact: bool, ms: seq<Message>, i: nat, n: nat)
    requires i < |ms| && ms[i].Assistant?
  {
    var calls := ToolCalls(ms[i].reply.content);
    && n <= |calls| && (calls != [] ==> n > 0) && (exact ==> n == |calls|)
    && i + n < |ms|
    && (forall j :: 0 <= j < n ==> IsResultFor(ms[i + 1 + j], calls[j]))
    && (i + 1 + n < |ms| ==> !ms[i + 1 + n].ToolResult?)
  }

  ghost predicate Paired(exact: bool, ms: seq<Message>, from: nat) {
    forall i :: from <= i < |ms| && ms[i].Assistant? ==> exists n :: FollowedBy(exact, ms, i, n)
  }

  /** The transcript up to and including the assistant message of the turn is `head`; its results come behind. */
  ghost predicate InTheMiddle(rules: Rules, w: Watch, from: nat)
    requires w.Watch?
  {
    var calls, c := ToolCalls(w.reply.content), |w.messages| - |w.results| - 1;
    && from <= c < |w.messages|
    && w.messages[c] == Assistant(w.reply)
    && w.messages[c + 1..] == w.results
    && |w.results| <= |calls|
    && (forall j :: 0 <= j < |w.results| ==> IsResultFor(w.results[j], calls[j]))
    && Paired(rules.exact, w.messages[..c], from)
  }

  /** The turn's results are still coming, or never will because its assistant message has failed. */
  predicate Unfinished(w: Watch)
    requires w.Watch?
  {
    w.phase.Acting? || w.phase.Closing? || (w.phase.Over? && Failed(w.reply))
  }

  ghost predicate Tidy(rules: Rules, w: Watch, from: nat) {
    && Sane(w)
    && from <= |w.messages|
    && Plain(w.owed)
    && (if Unfinished(w) then InTheMiddle(rules, w, from) else Paired(rules.exact, w.messages, from))
    && (w.phase.Between? ==> !Failed(w.reply))
    && (w.phase.Closing? ==> Failed(w.reply))
    && (w.phase.Acting? && w.open.Some? ==>
          |w.results| < |ToolCalls(w.reply.content)|
          && IsResultFor(w.open.value, ToolCalls(w.reply.content)[|w.results|]))
  }

  lemma PairedSnoc(exact: bool, ms: seq<Message>, from: nat, m: Message)
    requires Paired(exact, ms, from) && (m.User? || m.Custom?)
    ensures Paired(exact, ms + [m], from)
  {
    forall i | from <= i < |ms + [m]| && (ms + [m])[i].Assistant?
      ensures exists n :: FollowedBy(exact, ms + [m], i, n)
    {
      var n :| FollowedBy(exact, ms, i, n);
      assert FollowedBy(exact, ms + [m], i, n);
    }
  }

  lemma PairedWhenTurnEnds(exact: bool, ms: seq<Message>, from: nat, c: nat)
    requires from <= c < |ms| && ms[c].Assistant?
    requires Paired(exact, ms[..c], from)
    requires FollowedBy(exact, ms, c, |ms| - c - 1)
    ensures Paired(exact, ms, from)
  {
    forall i | c < i < |ms|
      ensures ms[i].ToolResult?
    {
      assert IsResultFor(ms[c + 1 + (i - c - 1)], ToolCalls(ms[c].reply.content)[i - c - 1]);
    }
    forall i | from <= i < |ms| && ms[i].Assistant?
      ensures exists n :: FollowedBy(exact, ms, i, n)
    {
      if i < c {
        var n :| FollowedBy(exact, ms[..c], i, n);
        assert FollowedBy(exact, ms, i, n);
      }
    }
  }

  lemma TidyTurnEnd(rules: Rules, w: Watch, x: Interaction, from: nat)
    requires Tidy(rules, w, from) && Protocol.Step(rules, w, x).Watch?
    requires x.Emit? && x.event.TurnEnd?
    ensures Tidy(rules, Protocol.Step(rules, w, x), from)
  {
    hide ToolCalls, Paired;
    if !Failed(w.reply) {
      var c := |w.messages| - |w.results| - 1;
      forall j | 0 <= j < |w.results|
        ensures w.messages[c + 1 + j] == w.results[j]
      {
        assert w.messages[c + 1..][j] == w.results[j];
      }
      PairedWhenTurnEnds(rules.exact, w.messages, from, c);
    }
  }

  lemma TidyMessageEnd(rules: Rules, w: Watch, x: Interaction, from: nat)
    requires Tidy(rules, w, from) && Protocol.Step(rules, w, x).Watch?
    requires x.Emit? && x.event.MessageEnd?
    ensures Tidy(rules, Protocol.Step(rules, w, x), from)
  {
    hide Protocol.Step, ToolCalls, Paired, InTheMiddle;
    var m, w' := x.event.message, Protocol.Step(rules, w, x);
    SaneStep(rules, w, x);
    MessageStep(rules, w, x);
    MessageEndNotes(rules, w, x);
    match w.phase {
      case Opening => PairedSnoc(rules.exact, w.messages, from, m);
      case Calling => MiddleBegins(rules, w, w', from, m);
      case Acting => MiddleGrows(rules, w, w', from, m);
    }
  }

  lemma MessageEndNotes(rules: Rules, w: Watch, x: Interaction)
    requires w.Watch? && Protocol.Step(rules, w, x).Watch? && x.Emit? && x.event.MessageEnd?
    ensures var w' := Protocol.Step(rules, w, x);
            && w'.messages == w.messages + [x.event.message] && w'.open.None?
            && (w.phase.Opening? ==> w'.reply == w.reply)
  {
    hide ToolCalls;
  }

  lemma MiddleBegins(rules: Rules, w: Watch, w': Watch, from: nat, m: Message)
    requires w.Watch? && from <= |w.messages| && Paired(rules.exact, w.messages, from)
    requires w'.Watch? && w'.messages == w.messages + [m] && m == Assistant(w'.reply) && w'.results == []
    ensures InTheMiddle(rules, w', from)
  {
    hide ToolCalls, Paired;
    assert (w.messages + [m])[..|w.messages|] == w.messages;
  }

  lemma MiddleGrows(rules: Rules, w: Watch, w': Watch, from: nat, m: Message)
    requires w.Watch? && InTheMiddle(rules, w, from) && |w.results| < |ToolCalls(w.reply.content)|
    requires IsResultFor(m, ToolCalls(w.reply.content)[|w.results|])
    requires w'.Watch? && w'.messages == w.messages + [m] && w'.reply == w.reply && w'.results == w.results + [m]
    ensures InTheMiddle(rules, w', from)
  {
    hide ToolCalls, Paired;
    var c := |w.messages| - |w.results| - 1;
    assert (w.messages + [m])[..c] == w.messages[..c];
    assert (w.messages + [m])[c + 1..] == w.messages[c + 1..] + [m];
  }

  lemma TidyStep(rules: Rules, w: Watch, x: Interaction, from: nat)
    requires Tidy(rules, w, from) && Protocol.Step(rules, w, x).Watch? && Plain(Polled(x))
    ensures Tidy(rules, Protocol.Step(rules, w, x), from)
  {
    hide ToolCalls, Paired, Plain;
    if x.Emit? && x.event.TurnEnd? {
      TidyTurnEnd(rules, w, x, from);
    } else if x.Emit? && x.event.MessageEnd? {
      TidyMessageEnd(rules, w, x, from);
    } else if IsToolStep(x) {
      TidyToolStep(rules, w, x, from);
    } else if IsMessageStep(x) {
      TidyMessageShown(rules, w, x, from);
    } else {
      hide TurnComplete, MayStart, InTheMiddle;
      SaneStep(rules, w, x);
    }
  }

  lemma TidyToolStep(rules: Rules, w: Watch, x: Interaction, from: nat)
    requires Tidy(rules, w, from) && Protocol.Step(rules, w, x).Watch? && IsToolStep(x)
    ensures Tidy(rules, Protocol.Step(rules, w, x), from)
  {
    hide Protocol.Step, ToolCalls, Paired, Plain;
    SaneStep(rules, w, x);
    ToolStep(rules, w, x);
  }

  lemma TidyMessageShown(rules: Rules, w: Watch, x: Interaction, from: nat)
    requires Tidy(rules, w, from) && Protocol.Step(rules, w, x).Watch?
    requires x.Emit? && (x.event.MessageStart? || x.event.MessageUpdate?)
    ensures Tidy(rules, Protocol.Step(rules, w, x), from)
  {
    hide ToolCalls, Paired, Plain, InTheMiddle;
    SaneStep(rules, w, x);
    var w' := Protocol.Step(rules, w, x);
    assert w' == w.(open := w'.open);
    SameTranscript(rules, w, w', from);
  }

  lemma SameTranscript(rules: Rules, w: Watch, w': Watch, from: nat)
    requires w.Watch? && w'.Watch? && w' == w.(open := w'.open)
    ensures InTheMiddle(rules, w, from) == InTheMiddle(rules, w', from)
  {
  }

  lemma {:induction false} AlwaysTidy(rules: Rules, w: Watch, log: seq<Interaction>, from: nat)
    requires Tidy(rules, w, from) && Accepts(rules, w, log) && PlainPolls(log)
    ensures Tidy(rules, Observe(rules, w, log), from)
  {
    hide Protocol.Step, Tidy, Plain;
    if log != [] {
      PrefixAccepted(rules, w, log, |log| - 1);
      AlwaysTidy(rules, w, log[..|log| - 1], from);
      TidyStep(rules, Observe(rules, w, log[..|log| - 1]), log[|log| - 1], from);
    }
  }

  /** If users and queues write plain messages, then in every transcript handed to the provider each assistant message
      added by the run is followed at once by exactly one result per call, with matching ids in source order; if
      somebody aborts, by the results of a nonempty source-order prefix of its calls. */
  lemma ResultsFollowCalls(
      rules: Rules, messages: seq<Message>, prompts: seq<Message>, log: seq<Interaction>, k: nat)
    requires rules.mirrored && Accepts(rules, Initial(messages, prompts), log)
    requires Plain(prompts) && PlainPolls(log)
    requires k < |log| && log[k].LlmCall?
    ensures messages <= log[k].context && Paired(rules.exact, log[k].context, |messages|)
  {
    hide Paired, Plain;
    var w := Initial(messages, prompts);
    PrefixAccepted(rules, w, log, k);
    NothingToPair(rules.exact, messages);
    AlwaysTidy(rules, w, log[..k], |messages|);
    TranscriptGrows(rules, w, log[..k]);
  }

  // ----- The transcript a run leaves -----

  /** The assistant message completed since the provider was last called, if there is one. */
  function OpenReply(log: seq<Interaction>): Option<AssistantMessage> {
    if log == [] then None
    else
      match log[|log| - 1]
      case LlmCall(_) => None
      case Emit(MessageEnd(Assistant(reply))) => Some(reply)
      case _ => OpenReply(log[..|log| - 1])
  }

  /** The calls of this message have been answered, as many of them as have to be. */
  predicate RepliesAnswered(exact: bool, log: seq<Interaction>) {
    match OpenReply(log)
    case None => true
    case Some(reply) =>
      var calls := ToolCalls(reply.content);
      if exact then |ResultsShown(log)| == |calls| else calls != [] ==> ResultsShown(log) != []
  }

  /** What the observer knows about this message. */
  ghost predicate ReplyKept(rules: Rules, w: Watch, log: seq<Interaction>) {
    && Sane(w) && Plain(w.owed)
    && (OpenReply(log).Some? ==> OpenReply(log) == Some(w.reply) && ResultsShown(log) == w.results)
    && (w.phase.Fresh? || w.phase.Started? || w.phase.Calling? ==> OpenReply(log).None?)
    && (w.phase.Calling? ==> ResultsShown(log) == [])
    && (w.phase.Acting? || w.phase.Between? || w.phase.Closing? || w.phase.Over? ==> OpenReply(log).Some?)
    && (w.phase.Between? ==> !Failed(w.reply))
    && (w.phase.Closing? ==> Failed(w.reply))
    && (w.phase.Closing? || (w.phase.Over? && Failed(w.reply)) ==> w.results == [])
    && (OpenReply(log).Some? && !Unfinished(w) ==> RepliesAnswered(rules.exact, log))
  }

  lemma OpenReplySnoc(log: seq<Interaction>, x: Interaction)
    ensures OpenReply(log + [x])
         == match x
            case LlmCall(_) => None
            case Emit(MessageEnd(Assistant(reply))) => Some(reply)
            case _ => OpenReply(log)
    ensures ResultsShown(log + [x])
         == match x
            case LlmCall(_) => []
            case Emit(MessageEnd(m)) => ResultsShown(log) + if m.ToolResult? then [m] else []
            case _ => ResultsShown(log)
  {
    assert (log + [x])[..|log|] == log;
  }

  lemma ReplyKeptMessageStep(rules: Rules, w: Watch, log: seq<Interaction>, x: Interaction)
    requires ReplyKept(rules, w, log) && Protocol.Step(rules, w, x).Watch? && IsMessageStep(x)
    ensures ReplyKept(rules, Protocol.Step(rules, w, x), log + [x])
  {
    hide Protocol.Step, OpenReply, ResultsShown, ToolCalls;
    SaneStep(rules, w, x);
    OpenReplySnoc(log, x);
    MessageStep(rules, w, x);
    assert ResultsShown(log) + [] == ResultsShown(log);
    if x.event.MessageEnd? && w.phase.Opening? {
      assert w.owed[0] == x.event.message;
      InjectingKeepsReply(rules, w, x);
    }
  }

  lemma InjectingKeepsReply(rules: Rules, w: Watch, x: Interaction)
    requires w.Watch? && w.phase.Opening? && Protocol.Step(rules, w, x).Watch? && x.Emit? && x.event.MessageEnd?
    ensures var w' := Protocol.Step(rules, w, x); w'.reply == w.reply && w'.results == w.results
  {
  }

  lemma ReplyKeptFrameStep(rules: Rules, w: Watch, log: seq<Interaction>, x: Interaction)
    requires ReplyKept(rules, w, log) && Protocol.Step(rules, w, x).Watch? && Plain(Polled(x))
    requires !IsToolStep(x) && !IsMessageStep(x)
    ensures ReplyKept(rules, Protocol.Step(rules, w, x), log + [x])
  {
    hide Protocol.Step, OpenReply, ResultsShown, ToolCalls, Plain;
    SaneStep(rules, w, x);
    OpenReplySnoc(log, x);
    FrameStep(rules, w, x);
    if x.Emit? && x.event.TurnEnd? {
      TurnIsComplete(rules, w, x);
    }
  }

  lemma TurnIsComplete(rules: Rules, w: Watch, x: Interaction)
    requires w.Watch? && Protocol.Step(rules, w, x).Watch? && x.Emit? && x.event.TurnEnd?
    ensures TurnComplete(rules, w)
  {
    hide TurnComplete;
  }

  lemma {:induction false} ReplyAlwaysKept(
      rules: Rules, messages: seq<Message>, prompts: seq<Message>, log: seq<Interaction>)
    requires Accepts(rules, Initial(messages, prompts), log) && Plain(prompts) && PlainPolls(log)
    ensures ReplyKept(rules, Observe(rules, Initial(messages, prompts), log), log)
  {
    hide Protocol.Step, ReplyKept, Plain;
    var w := Initial(messages, prompts);
    if log == [] {
      NoReplyAtFirst(rules, messages, prompts);
    } else {
      var front, x := log[..|log| - 1], log[|log| - 1];
      PrefixAccepted(rules, w, log, |log| - 1);
      ReplyAlwaysKept(rules, messages, prompts, front);
      ReplyKeptStep(rules, Observe(rules, w, front), front, x);
      assert front + [x] == log;
    }
  }

  lemma NoReplyAtFirst(rules: Rules, messages: seq<Message>, prompts: seq<Message>)
    requires Plain(prompts)
    ensures ReplyKept(rules, Initial(messages, prompts), [])
  {
  }

  lemma ReplyKeptStep(rules: Rules, w: Watch, log: seq<Interaction>, x: Interaction)
    requires ReplyKept(rules, w, log) && Protocol.Step(rules, w, x).Watch? && Plain(Polled(x))
    ensures ReplyKept(rules, Protocol.Step(rules, w, x), log + [x])
  {
    hide Protocol.Step, OpenReply, ResultsShown, ToolCalls, Plain;
    if IsToolStep(x) {
      SaneStep(rules, w, x);
      OpenReplySnoc(log, x);
      ToolStep(rules, w, x);
    } else if IsMessageStep(x) {
      ReplyKeptMessageStep(rules, w, log, x);
    } else {
      ReplyKeptFrameStep(rules, w, log, x);
    }
  }

  /** What may be put behind the transcript of a run: nothing, or an assistant message without calls. */
  predicate WithoutCalls(tail: seq<Message>) {
    tail == [] || (|tail| == 1 && tail[0].Assistant? && ToolCalls(tail[0].reply.content) == [])
  }

  /** A transcript in which the results of the last turn are incomplete. */
  lemma PairedInTheMiddle(rules: Rules, w: Watch, from: nat, tail: seq<Message>)
    requires w.Watch? && InTheMiddle(rules, w, from) && WithoutCalls(tail)
    ensures Paired(rules.exact, w.messages + tail, from) <==>
              var calls := ToolCalls(w.reply.content);
              if rules.exact then |w.results| == |calls| else calls != [] ==> w.results != []
  {
    hide ToolCalls, Paired;
    var ms, c, n := w.messages + tail, |w.messages| - |w.results| - 1, |w.results|;
    forall j | 0 <= j < n ensures ms[c + 1 + j] == w.results[j] {
      assert w.messages[c + 1..][j] == w.results[j];
    }
    forall i | c < i < c + 1 + n ensures ms[i].ToolResult? {
      assert ms[c + 1 + (i - c - 1)] == w.results[i - c - 1];
    }
    OnlyItsResults(rules.exact, ms, c, n);
    assert ms[..c] == w.messages[..c];
    PairedAtLast(rules.exact, ms, from, c, n);
  }

  /** The number of results that follow an assistant message is determined. */
  lemma OnlyItsResults(exact: bool, ms: seq<Message>, c: nat, n: nat)
    requires c + n < |ms| && ms[c].Assistant? && n <= |ToolCalls(ms[c].reply.content)|
    requires forall j :: 0 <= j < n ==> IsResultFor(ms[c + 1 + j], ToolCalls(ms[c].reply.content)[j])
    requires c + 1 + n < |ms| ==> !ms[c + 1 + n].ToolResult?
    ensures (exists m: nat :: FollowedBy(exact, ms, c, m)) <==> FollowedBy(exact, ms, c, n)
    ensures FollowedBy(exact, ms, c, n) <==>
              var calls := ToolCalls(ms[c].reply.content); (calls != [] ==> n > 0) && (exact ==> n == |calls|)
  {
    hide ToolCalls;
    var calls := ToolCalls(ms[c].reply.content);
    forall m: nat | FollowedBy(exact, ms, c, m) ensures m == n {
      assert m < n ==> IsResultFor(ms[c + 1 + m], calls[m]);
      assert n < m ==> IsResultFor(ms[c + 1 + n], calls[n]);
    }
  }

  /** Whether a transcript is paired depends on the last assistant message that has calls. */
  lemma PairedAtLast(exact: bool, ms: seq<Message>, from: nat, c: nat, n: nat)
    requires from <= c && c + n < |ms| <= c + n + 2 && ms[c].Assistant?
    requires Paired(exact, ms[..c], from)
    requires forall i :: c < i < c + 1 + n ==> ms[i].ToolResult?
    requires |ms| == c + n + 2 ==>
               ms[|ms| - 1].Assistant? && ToolCalls(ms[|ms| - 1].reply.content) == []
    ensures Paired(exact, ms, from) <==> exists m: nat :: FollowedBy(exact, ms, c, m)
  {
    hide ToolCalls;
    if m: nat :| FollowedBy(exact, ms, c, m) {
      forall i | from <= i < |ms| && ms[i].Assistant? ensures exists k :: FollowedBy(exact, ms, i, k) {
        if i < c {
          assert ms[..c][i] == ms[i];
          var k :| FollowedBy(exact, ms[..c], i, k);
          assert FollowedBy(exact, ms, i, k);
        } else if i > c {
          assert FollowedBy(exact, ms, i, 0);
        }
      }
    }
  }

  lemma PairedWithTail(exact: bool, ms: seq<Message>, from: nat, tail: seq<Message>)
    requires Paired(exact, ms, from) && from <= |ms| && WithoutCalls(tail)
    ensures Paired(exact, ms + tail, from)
  {
    hide ToolCalls;
    var all := ms + tail;
    forall i | from <= i < |all| && all[i].Assistant? ensures exists k :: FollowedBy(exact, all, i, k) {
      if i < |ms| {
        var k :| FollowedBy(exact, ms, i, k);
        assert FollowedBy(exact, all, i, k);
      } else {
        assert FollowedBy(exact, all, i, 0);
      }
    }
  }

  /** If users and queues write plain messages: at whatever point a run stops, the messages it has added to the
      transcript, followed by a failure message or not, are paired, calls with results, if and only if the calls of the
      assistant message completed since the last provider call have been answered, or there is no such message. */
  lemma WhenPaired(
      rules: Rules, messages: seq<Message>, prompts: seq<Message>, log: seq<Interaction>, tail: seq<Message>)
    requires Accepts(rules, Initial(messages, prompts), log)
    requires Plain(prompts) && PlainPolls(log) && WithoutCalls(tail)
    ensures Paired(rules.exact, messages + Completed(Events(log)) + tail, |messages|) <==>
              RepliesAnswered(rules.exact, log)
  {
    hide Paired, Plain, Completed, Events, ToolCalls, OpenReply, ResultsShown, InTheMiddle, WithoutCalls, TurnComplete;
    var w := Initial(messages, prompts);
    var s := State(messages, false, None, {}, None, NO_ORIGIN);
    NothingToPair(rules.exact, messages);
    AlwaysTidy(rules, w, log, |messages|);
    ReplyAlwaysKept(rules, messages, prompts, log);
    AlwaysMirrors(rules, w, s, log);
    TranscriptGrowsByCompleted(s, Events(log));
    var seen := Observe(rules, w, log);
    if Unfinished(seen) {
      PairedInTheMiddle(rules, seen, |messages|, tail);
    } else {
      PairedWithTail(rules.exact, seen.messages, |messages|, tail);
    }
  }

  /** When a run is over, the calls of its last assistant message have been answered, unless it has failed with calls. */
  lemma AnsweredWhenOver(rules: Rules, messages: seq<Message>, prompts: seq<Message>, log: seq<Interaction>)
    requires Accepts(rules, Initial(messages, prompts), log) && Plain(prompts) && PlainPolls(log)
    requires Observe(rules, Initial(messages, prompts), log).phase.Over?
    ensures OpenReply(log).Some?
    ensures var reply := OpenReply(log).value;
            RepliesAnswered(rules.exact, log) <==> !Failed(reply) || ToolCalls(reply.content) == []
  {
    hide Plain, PlainPolls, ToolCalls, OpenReply, ResultsShown;
    ReplyAlwaysKept(rules, messages, prompts, log);
  }

  lemma NothingToPair(exact: bool, messages: seq<Message>)
    ensures Paired(exact, messages, |messages|)
  {
  }

  lemma {:induction false} TranscriptGrows(rules: Rules, w: Watch, log: seq<Interaction>)
    requires Accepts(rules, w, log)
    ensures w.Watch? && w.messages <= Observe(rules, w, log).messages
  {
    if log != [] {
      PrefixAccepted(rules, w, log, |log| - 1);
      TranscriptGrows(rules, w, log[..|log| - 1]);
      TranscriptStep(rules, Observe(rules, w, log[..|log| - 1]), log[|log| - 1]);
    }
  }

  lemma TranscriptStep(rules: Rules, w: Watch, x: Interaction)
    requires w.Watch? && Protocol.Step(rules, w, x).Watch?
    ensures w.messages <= Protocol.Step(rules, w, x).messages
  {
    hide ToolCalls, TurnComplete, MayStart, Idle;
  }
}
