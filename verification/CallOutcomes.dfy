/** What becomes of a tool call, told from the answers of its surroundings alone: whether it is executed, what it ends
    with, and everything that is seen of it on the way, in both executors and under every schedule. */
module CallOutcomes {
  import opened Types
  import opened Tools
  import opened Parallel
  import opened Scheduling
  import opened AgentLoop
  import opened Turns
  import opened Aborts

  // ----- What a call is due -----

  /** Why a call is not executed. */
  datatype Reason = NoSuchTool | BadArguments | HookThrew | WasAborted | WasBlocked

  /** The reasons in the order in which they are looked at. */
  const REASONS: seq<Reason> := [NoSuchTool, BadArguments, HookThrew, WasAborted, WasBlocked]

  predicate Applies(r: Reason, tools: seq<Tool>, call: ToolCall, env: CallEnv) {
    match r
    case NoSuchTool => forall i :: 0 <= i < |tools| ==> tools[i].name != call.name
    case BadArguments => env.validated.Threw?
    case HookThrew => env.before.Some? && env.before.value.Threw?
    case WasAborted => env.abortedAtPreflight
    case WasBlocked => Blocks(env.before)
  }

  predicate Blocks(before: Option<Attempt<Option<BeforeResult>>>) {
    && before.Some? && before.value.Returned? && before.value.value.Some?
    && before.value.value.value.block
  }

  /** What the caller is told. */
  function Text(r: Reason, call: ToolCall, env: CallEnv): string {
    match r
    case NoSuchTool => "Tool " + call.name + " not found"
    case BadArguments => if env.validated.Threw? then env.validated.message else ""
    case HookThrew => if env.before.Some? && env.before.value.Threw? then env.before.value.message else ""
    case WasAborted => "Operation aborted"
    case WasBlocked =>
      var reason := if Blocks(env.before) then env.before.value.value.value.reason else None;
      match reason
      case Some(text) => if text == "" then "Tool execution was blocked" else text
      case None => "Tool execution was blocked"
  }

  /** The first of the reasons that applies is number `n`. */
  predicate Refused(n: nat, tools: seq<Tool>, call: ToolCall, env: CallEnv) {
    && n < |REASONS| && Applies(REASONS[n], tools, call, env)
    && forall k :: 0 <= k < n ==> !Applies(REASONS[k], tools, call, env)
  }

  /** There is a tool of this name, its arguments are valid, the hook is absent or answers and does not block, and no
      abort is seen. */
  predicate Passes(tools: seq<Tool>, call: ToolCall, env: CallEnv) {
    && (exists i :: 0 <= i < |tools| && tools[i].name == call.name)
    && env.validated.Returned?
    && (env.before.None? || env.before.value.Returned?) && !Blocks(env.before)
    && !env.abortedAtPreflight
  }

  /** An error that says so. */
  predicate IsError(result: ToolOutput, isError: bool, text: string) {
    isError && result.content == text && result.details.text == "{}" && result.terminate.None?
  }

  /** What the tool itself came to. */
  predicate FromTool(env: CallEnv, result: ToolOutput, isError: bool) {
    && (env.execution.Returned? ==> result == env.execution.value && !isError)
    && (env.execution.Threw? ==> IsError(result, isError, env.execution.message))
  }

  /** Either part that is given replaces what was there. */
  predicate Replaces<T(==)>(given: Option<T>, before: T, after: T) {
    (given.Some? ==> after == given.value) && (given.None? ==> after == before)
  }

  /** What the review by `afterToolCall` leaves of it. */
  ghost predicate Reviewed(env: CallEnv, result: ToolOutput, isError: bool) {
    exists raw, rawIsError ::
      && FromTool(env, raw, rawIsError)
      && (env.after.None? ==> result == raw && isError == rawIsError)
      && (env.after.Some? && env.after.value.Threw? ==> IsError(result, isError, env.after.value.message))
      && (env.after.Some? && env.after.value.Returned? ==>
            match env.after.value.value
            case None => result == raw && isError == rawIsError
            case Some(o) =>
              && Replaces(o.content, raw.content, result.content)
              && Replaces(o.details, raw.details, result.details)
              && (o.terminate.Some? ==> result.terminate == o.terminate)
              && (o.terminate.None? ==> result.terminate == raw.terminate)
              && Replaces(o.isError, rawIsError, isError))
  }

  /** The outcome that a call is due. */
  ghost predicate Due(tools: seq<Tool>, call: ToolCall, env: CallEnv, result: ToolOutput, isError: bool) {
    && (forall n: nat :: Refused(n, tools, call, env) ==> IsError(result, isError, Text(REASONS[n], call, env)))
    && (Passes(tools, call, env) ==> Reviewed(env, result, isError))
  }

  /** Every call passes, or is refused for exactly one first reason. */
  lemma PassesOrRefused(tools: seq<Tool>, call: ToolCall, env: CallEnv)
    ensures Passes(tools, call, env) <==> forall n: nat :: !Refused(n, tools, call, env)
    ensures forall m: nat, n: nat :: Refused(m, tools, call, env) && Refused(n, tools, call, env) ==> m == n
  {
    if !Passes(tools, call, env) {
      hide Passes;
      var n: nat :| n < |REASONS| && Applies(REASONS[n], tools, call, env) by { SomeReason(tools, call, env); }
      var _ := FirstReason(tools, call, env, n);
    }
  }

  lemma SomeReason(tools: seq<Tool>, call: ToolCall, env: CallEnv)
    requires !Passes(tools, call, env)
    ensures exists n: nat :: n < |REASONS| && Applies(REASONS[n], tools, call, env)
  {
    if Applies(REASONS[0], tools, call, env) {
    } else if Applies(REASONS[1], tools, call, env) {
    } else if Applies(REASONS[2], tools, call, env) {
    } else if Applies(REASONS[3], tools, call, env) {
    } else {
      assert Applies(REASONS[4], tools, call, env);
    }
  }

  lemma {:induction false} FirstReason(tools: seq<Tool>, call: ToolCall, env: CallEnv, n: nat) returns (m: nat)
    requires n < |REASONS| && Applies(REASONS[n], tools, call, env)
    ensures Refused(m, tools, call, env)
  {
    hide Applies;
    if k: nat :| k < n && Applies(REASONS[k], tools, call, env) {
      m := FirstReason(tools, call, env, k);
    } else {
      m := n;
    }
  }

  // ----- Preflight -----

  lemma PreparedIfPasses(tools: seq<Tool>, call: ToolCall, env: CallEnv)
    ensures Prepare(tools, call, env).Prepared? <==> Passes(tools, call, env)
    ensures Passes(tools, call, env) ==> Prepare(tools, call, env) == Prepared(env.validated.value)
  {
    hide FindTool;
    var i := FoundIsCalled(tools, call.name);
  }

  lemma RefusedSaysWhy(tools: seq<Tool>, call: ToolCall, env: CallEnv, n: nat)
    requires Refused(n, tools, call, env)
    ensures match Prepare(tools, call, env)
            case Prepared(_) => false
            case Immediate(result, isError) => IsError(result, isError, Text(REASONS[n], call, env))
  {
    hide FindTool;
    var i := FoundIsCalled(tools, call.name);
    var none := FindTool(tools, call.name).None?;
    assert none <==> Applies(REASONS[0], tools, call, env);
    assert REASONS[1] == BadArguments && REASONS[2] == HookThrew && REASONS[3] == WasAborted;
    if n == 4 {
      assert !Applies(REASONS[0], tools, call, env) && !Applies(REASONS[1], tools, call, env);
      assert !Applies(REASONS[2], tools, call, env) && !Applies(REASONS[3], tools, call, env);
    } else if n == 3 {
      assert !Applies(REASONS[0], tools, call, env) && !Applies(REASONS[1], tools, call, env);
      assert !Applies(REASONS[2], tools, call, env);
    } else if n == 2 {
      assert !Applies(REASONS[0], tools, call, env) && !Applies(REASONS[1], tools, call, env);
    } else if n == 1 {
      assert !Applies(REASONS[0], tools, call, env);
    }
  }

  lemma FinalizeReviews(call: ToolCall, env: CallEnv)
    ensures Finalize(call, env).call == call
    ensures Reviewed(env, Finalize(call, env).result, Finalize(call, env).isError)
  {
    var isError := env.execution.Threw?;
    var raw := if isError then ErrorResult(env.execution.message) else env.execution.value;
    assert FromTool(env, raw, isError);
  }

  /** The outcome of a call is the one it is due. */
  lemma OutcomeIsDue(tools: seq<Tool>, call: ToolCall, env: CallEnv)
    ensures var f := Outcome(tools, call, env); f.call == call && Due(tools, call, env, f.result, f.isError)
  {
    hide Prepare, Finalize, Reviewed, Text, IsError, Passes;
    PreparedIfPasses(tools, call, env);
    FinalizeReviews(call, env);
    PassesOrRefused(tools, call, env);
    forall n: nat | Refused(n, tools, call, env)
      ensures IsError(Outcome(tools, call, env).result, Outcome(tools, call, env).isError, Text(REASONS[n], call, env))
    {
      RefusedSaysWhy(tools, call, env, n);
    }
    OutcomeOfCall(tools, call, env);
  }

  lemma OutcomeOfCall(tools: seq<Tool>, call: ToolCall, env: CallEnv)
    ensures Outcome(tools, call, env).call == call
  {
    hide Prepare;
  }

  // ----- Outcomes and result messages -----

  lemma {:induction false} OutcomeAt(tools: seq<Tool>, calls: seq<ToolCall>, env: seq<CallEnv>, n: nat, i: nat)
    requires i < n <= |calls| <= |env|
    ensures Outcomes(tools, calls, env, n)[i] == Outcome(tools, calls[i], env[i])
  {
    hide Outcome;
    if i < n - 1 {
      OutcomeAt(tools, calls, env, n - 1, i);
    }
  }

  /** A result message carries the outcome of its call. */
  predicate Carries(m: Message, call: ToolCall, result: ToolOutput, isError: bool) {
    m == ToolResult(call.id, call.name, result.content, result.details, isError)
  }

  /** The message events of a batch with these outcomes: one result message each, in order. */
  ghost predicate ShowsResults(log: seq<Interaction>, calls: seq<ToolCall>, fs: seq<Finalized>)
    requires |fs| <= |calls|
  {
    && |log| == 2 * |fs|
    && forall i :: 0 <= i < |fs| ==>
         && log[2 * i].Emit? && log[2 * i].event.MessageStart?
         && log[2 * i + 1] == Emit(MessageEnd(log[2 * i].event.message))
         && Carries(log[2 * i].event.message, calls[i], fs[i].result, fs[i].isError)
  }

  lemma {:induction false} ResultsAreShown(calls: seq<ToolCall>, fs: seq<Finalized>)
    requires |fs| <= |calls| && forall i :: 0 <= i < |fs| ==> fs[i].call == calls[i]
    ensures ShowsResults(MessagesLog(ResultMessages(fs)), calls, fs)
  {
    if fs != [] {
      var n := |fs| - 1;
      var front, last := MessagesLog(ResultMessages(fs[..n])), MessageLog(ResultMessage(fs[n]));
      ResultsAreShown(calls, fs[..n]);
      assert ResultMessages(fs) == ResultMessages(fs[..n]) + [ResultMessage(fs[n])];
      assert ResultMessages(fs)[..n] == ResultMessages(fs[..n]);
      assert MessagesLog(ResultMessages(fs)) == front + last;
      assert forall i :: 0 <= i < n ==> fs[..n][i] == fs[i];
    }
  }

  /** In a complete batch, in both executors and under every schedule: each call reached ends with the outcome it is
      due, and the transcript gets one result message for each, in source order, which carries that outcome. */
  lemma OutcomesAreDue(
      mode: ToolMode, context: Context, calls: seq<ToolCall>, env: seq<CallEnv>, schedule: seq<Action>)
    requires |calls| <= |env| && ExecuteBatch(mode, context, calls, env, schedule).complete
    ensures var b := ExecuteBatch(mode, context, calls, env, schedule);
            && |b.finalized| == Reached(calls, env, 0) <= |calls|
            && (forall i :: 0 <= i < |b.finalized| ==>
                  && b.finalized[i].call == calls[i]
                  && Due(context.tools, calls[i], env[i], b.finalized[i].result, b.finalized[i].isError))
            && ShowsResults(MessageEvents(b.log), calls, b.finalized)
  {
    hide Outcomes, Outcome, ParallelBatch, SequentialLog, MessageEvents, Due, ShowsResults, Reached, ResultMessages,
         MessagesLog;
    var n := Reached(calls, env, 0);
    var b := ExecuteBatch(mode, context, calls, env, schedule);
    if !UsesSequential(mode, context.tools, calls) {
      ParallelRefinesSequential(context, calls, env, schedule);
    }
    SequentialMessages(context, calls, env, n);
    forall i | 0 <= i < n
      ensures b.finalized[i].call == calls[i]
      ensures Due(context.tools, calls[i], env[i], b.finalized[i].result, b.finalized[i].isError)
    {
      OutcomeAt(context.tools, calls, env, n, i);
      OutcomeIsDue(context.tools, calls[i], env[i]);
    }
    ResultsAreShown(calls, b.finalized);
  }

  /** The calls taken up are those before the first behind which an abort is seen, and it. */
  lemma {:induction false} ReachedUntilAbort(calls: seq<ToolCall>, env: seq<CallEnv>, k: nat)
    requires k <= |calls| <= |env|
    ensures var n := Reached(calls, env, k);
            && (forall i :: k <= i < n - 1 ==> !env[i].abortedAfter)
            && (n < |calls| ==> n > k && env[n - 1].abortedAfter)
    decreases |calls| - k
  {
    if k < |calls| && !env[k].abortedAfter {
      ReachedUntilAbort(calls, env, k + 1);
    }
  }

  // ----- Executions -----

  /** The executions that the first `n` calls are due, in source order. */
  function DueExecutions(tools: seq<Tool>, calls: seq<ToolCall>, env: seq<CallEnv>, n: nat): seq<Interaction>
    requires n <= |calls| <= |env|
  {
    if n == 0 then []
    else
      DueExecutions(tools, calls, env, n - 1)
        + if Passes(tools, calls[n - 1], env[n - 1])
          then [Execute(calls[n - 1].id, env[n - 1].validated.value)] else []
  }

  lemma {:induction false} AdmittedAreDue(tools: seq<Tool>, calls: seq<ToolCall>, env: seq<CallEnv>, n: nat)
    requires n <= |calls| <= |env|
    ensures Admitted(tools, calls, env, n) == DueExecutions(tools, calls, env, n)
  {
    hide Prepare, Passes;
    if n > 0 {
      AdmittedAreDue(tools, calls, env, n - 1);
      PreparedIfPasses(tools, calls[n - 1], env[n - 1]);
    }
  }

  /** In a batch, complete or not, the executions are the first of those that are due, in source order; in a complete
      one they are all of them. */
  lemma ExecutedAsDue(
      mode: ToolMode, context: Context, calls: seq<ToolCall>, env: seq<CallEnv>, schedule: seq<Action>)
    requires |calls| <= |env|
    ensures var b := ExecuteBatch(mode, context, calls, env, schedule);
            var due := DueExecutions(context.tools, calls, env, Reached(calls, env, 0));
            Executions(b.log) <= due && (b.complete ==> Executions(b.log) == due)
  {
    hide ExecuteBatch, Admitted, DueExecutions, Executions, Announcements, AnnouncementsOf, Reached;
    BatchShows(mode, context, calls, env, schedule);
    AdmittedAreDue(context.tools, calls, env, Reached(calls, env, 0));
  }

  lemma {:induction false} ExecutionsHold(log: seq<Interaction>, x: Interaction)
    requires x.Execute?
    ensures x in Executions(log) <==> x in log
  {
    if log != [] {
      ExecutionsHold(log[..|log| - 1], x);
      assert log == log[..|log| - 1] + [log[|log| - 1]];
    }
  }

  lemma {:induction false} DueIfPasses(
      tools: seq<Tool>, calls: seq<ToolCall>, env: seq<CallEnv>, n: nat, i: nat, id: string, args: Json)
    requires n <= |calls| <= |env| && Identifies(calls, n, i, id)
    ensures Execute(id, args) in DueExecutions(tools, calls, env, n) <==>
              i < n && Passes(tools, calls[i], env[i]) && args == env[i].validated.value
  {
    hide Passes;
    if n > 0 {
      DueIfPasses(tools, calls, env, n - 1, i, id, args);
      PassesValid(tools, calls[n - 1], env[n - 1]);
    }
  }

  lemma PassesValid(tools: seq<Tool>, call: ToolCall, env: CallEnv)
    ensures Passes(tools, call, env) ==> env.validated.Returned?
  {
  }

  /** If the calls have different ids: in a complete batch a call is executed, and then with its validated arguments, if
      and only if it is reached, its tool is there, its arguments are valid, the hook is absent or lets it pass, and no
      abort is seen at its preflight. */
  lemma ExecutedIffPasses(
      mode: ToolMode, context: Context, calls: seq<ToolCall>, env: seq<CallEnv>, schedule: seq<Action>, i: nat,
      args: Json)
    requires i < |calls| <= |env| && Identifies(calls, |calls|, i, calls[i].id)
    requires ExecuteBatch(mode, context, calls, env, schedule).complete
    ensures Execute(calls[i].id, args) in ExecuteBatch(mode, context, calls, env, schedule).log <==>
              i < Reached(calls, env, 0) && Passes(context.tools, calls[i], env[i]) && args == env[i].validated.value
  {
    hide ExecuteBatch, DueExecutions, Executions, Reached, Passes;
    ExecutedAsDue(mode, context, calls, env, schedule);
    ExecutionsHold(ExecuteBatch(mode, context, calls, env, schedule).log, Execute(calls[i].id, args));
    DueIfPasses(context.tools, calls, env, Reached(calls, env, 0), i, calls[i].id, args);
  }

  // ----- The whole story of a call -----

  /** The reports made before the promise settles, as they are shown. */
  ghost predicate ShowsReports(updates: seq<Interaction>, call: ToolCall, ticks: seq<Tick>) {
    && |updates| <= |ticks|
    && (|updates| < |ticks| ==> ticks[|updates|].Settle?)
    && forall k :: 0 <= k < |updates| ==>
         ticks[k].Report? && updates[k] == Emit(ToolUpdate(call.id, call.name, call.arguments, ticks[k].partial))
  }

  /** `beforeToolCall` is asked: there is one, the tool is there, and its arguments are valid. */
  predicate IsAsked(tools: seq<Tool>, call: ToolCall, env: CallEnv) {
    && env.before.Some? && env.validated.Returned?
    && exists i :: 0 <= i < |tools| && tools[i].name == call.name
  }

  /** Everything about a call, in order: announced; shown to `beforeToolCall` if it is asked; executed, if it passes,
      with the reports made before it settles, and then shown to `afterToolCall`, if there is one; and ended with the
      outcome it is due. Both hooks are handed the same transcript. */
  ghost predicate Tells(
      log: seq<Interaction>, context: Context, call: ToolCall, env: CallEnv, updates: seq<Interaction>,
      result: ToolOutput, isError: bool)
  {
    && Due(context.tools, call, env, result, isError)
    && ShowsReports(updates, call, env.ticks)
    && log
    == [Emit(ToolStart(call.id, call.name, call.arguments))]
         + (if IsAsked(context.tools, call, env) then [ConsultBefore(call.id, context.messages)] else [])
         + (if Passes(context.tools, call, env) then
              [Execute(call.id, env.validated.value)] + updates
                + (if env.after.Some? then [ConsultAfter(call.id, context.messages)] else [])
            else [])
         + [Emit(ToolEnd(call.id, call.name, result, isError))]
  }

  lemma {:induction false} AcceptedReports(call: ToolCall, ticks: seq<Tick>)
    ensures ShowsReports(AcceptedUpdates(call, ticks), call, ticks)
  {
    if ticks != [] && ticks[0].Report? {
      AcceptedReports(call, ticks[1..]);
    }
  }

  lemma AskedIfReached(context: Context, call: ToolCall, env: CallEnv)
    ensures BeforeLog(context, call, env)
         == if IsAsked(context.tools, call, env) then [ConsultBefore(call.id, context.messages)] else []
  {
    hide FindTool;
    var i := FoundIsCalled(context.tools, call.name);
  }

  lemma CallTraceTells(context: Context, call: ToolCall, env: CallEnv)
    ensures var f, updates := Outcome(context.tools, call, env), AcceptedUpdates(call, env.ticks);
            Tells(CallTrace(context, call, env), context, call, env, updates, f.result, f.isError)
  {
    hide Prepare, Finalize, Due, ShowsReports, BeforeLog, IsAsked, Passes;
    var e, f := EntryOf(context.tools, call, env), Outcome(context.tools, call, env);
    OutcomeIsDue(context.tools, call, env);
    AcceptedReports(call, env.ticks);
    AskedIfReached(context, call, env);
    PreparedIfPasses(context.tools, call, env);
    var start, before, end := [Emit(StartEvent(call))], BeforeLog(context, call, env), [Emit(EndEvent(f))];
    if e.Ready? {
      assert start + before + [] + end == (start + before + end) + [];
    } else {
      var run, updates := [Execute(call.id, e.args)], AcceptedUpdates(call, env.ticks);
      var after := AfterLog(context.messages, call, env);
      assert (start + before + []) + (run + (updates + (after + end)))
          == start + before + (run + updates + after) + end;
    }
  }

  /** If the calls have different ids: in a complete batch, in both executors and under every schedule, everything that
      is seen of a call reached is this story; and nothing is seen of any other. */
  lemma EveryCallTells(
      mode: ToolMode, context: Context, calls: seq<ToolCall>, env: seq<CallEnv>, schedule: seq<Action>, i: nat)
    returns (updates: seq<Interaction>, result: ToolOutput, isError: bool)
    requires i < |calls| <= |env| && Identifies(calls, |calls|, i, calls[i].id)
    requires ExecuteBatch(mode, context, calls, env, schedule).complete
    ensures var log := TraceOf(ExecuteBatch(mode, context, calls, env, schedule).log, calls[i].id);
            if i < Reached(calls, env, 0) then Tells(log, context, calls[i], env[i], updates, result, isError)
            else log == []
  {
    hide TraceOf, CallTrace, SequentialLog, ParallelBatch, Tells, Reached, Outcome, Outcomes, UsesSequential;
    if !UsesSequential(mode, context.tools, calls) {
      EachCallKeepsItsOrder(context, calls, env, schedule, i, calls[i].id);
    }
    SequentialTrace(context, calls, env, Reached(calls, env, 0), i, calls[i].id);
    CallTraceTells(context, calls[i], env[i]);
    var f := Outcome(context.tools, calls[i], env[i]);
    updates, result, isError := AcceptedUpdates(calls[i], env[i].ticks), f.result, f.isError;
  }

  /** The same in every run: in the log of its batch, at its place in the log of the run, everything about each call of
      a turn is this story. */
  lemma EveryRunTellsItsCalls(
      request: Request, context: Context, mode: ToolMode, steering: seq<Message>, turns: seq<TurnEnv>, t: nat, i: nat)
    returns (updates: seq<Interaction>, result: ToolOutput, isError: bool)
    requires AllAnswer(turns) && t < |TurnsOf(request, context, mode, steering, turns)|
    requires var taken := TurnsOf(request, context, mode, steering, turns)[t];
             && HasBatch(taken) && Answers(taken.te) && BatchOf(mode, taken).complete && i < |CallsOf(taken)|
             && Identifies(CallsOf(taken), |CallsOf(taken)|, i, CallsOf(taken)[i].id)
    ensures var taken := TurnsOf(request, context, mode, steering, turns)[t];
            var log, calls := RunOf(request, context, mode, steering, turns).log, CallsOf(taken);
            && BatchEnd(mode, taken) <= |log|
            && var trace := TraceOf(log[BatchStart(taken)..BatchEnd(mode, taken)], calls[i].id);
               if i < Reached(calls, taken.te.calls, 0)
               then Tells(trace, BatchContext(taken), calls[i], taken.te.calls[i], updates, result, isError)
               else trace == []
  {
    hide RunOf, TurnsOf, AssistantLog, ToolCalls, Answered, ExecuteBatch, TraceOf, Tells, Reached;
    BatchIsInRun(request, context, mode, steering, turns, t);
    var taken := TurnsOf(request, context, mode, steering, turns)[t];
    updates, result, isError :=
      EveryCallTells(mode, BatchContext(taken), CallsOf(taken), taken.te.calls, taken.te.schedule, i);
  }
}
