/** The messages queued for an agent: over every history of a run, whether it ends well or fails. */
module QueueRuns {
  import opened Types
  import opened AgentState
  import opened AgentLoop
  import opened Protocol
  import opened Guarantees
  import opened Grammar
  import opened Accounting
  import opened Runs
  import opened Theorems
  import opened Queues
  import opened Agent
  import opened Lifecycle
  import opened Failures
  import opened AgentRuns

  /** What a history means to the two queues. */
  function SteeringOp(a: Happening): seq<QueueOp> {
    match a
    case Steer(m) => [Enqueue(m)]
    case PollSteeringQueue => [Drain]
    case SetModes(mode, _) => [SetMode(mode)]
    case _ => []
  }

  function FollowUpOp(a: Happening): seq<QueueOp> {
    match a
    case FollowUp(m) => [Enqueue(m)]
    case PollFollowUpQueue => [Drain]
    case SetModes(_, mode) => [SetMode(mode)]
    case _ => []
  }

  function SteeringOps(actions: seq<Happening>): seq<QueueOp> {
    if actions == [] then [] else SteeringOp(actions[0]) + SteeringOps(actions[1..])
  }

  function FollowUpOps(actions: seq<Happening>): seq<QueueOp> {
    if actions == [] then [] else FollowUpOp(actions[0]) + FollowUpOps(actions[1..])
  }

  lemma PlayOne(q: Queue, op: QueueOp, rest: seq<QueueOp>)
    ensures PlayAll(q, [op] + rest) == PlayAll(Play(q, op), rest)
  {
    hide Play;
    assert ([op] + rest)[1..] == rest;
  }

  lemma ActOnQueues(c: Core, a: Happening)
    requires IsExecuting(c) && Possible(c, a) && !EndsRun(a)
    ensures Act(c, a).steering
         == match a
            case Steer(m) => Play(c.steering, Enqueue(m))
            case PollSteeringQueue => Play(c.steering, Drain)
            case SetModes(mode, _) => Play(c.steering, SetMode(mode))
            case _ => c.steering
    ensures Act(c, a).followUp
         == match a
            case FollowUp(m) => Play(c.followUp, Enqueue(m))
            case PollFollowUpQueue => Play(c.followUp, Drain)
            case SetModes(_, mode) => Play(c.followUp, SetMode(mode))
            case _ => c.followUp
  {
    hide Reduce, AfterDrain;
  }

  /** During a run the queues go through the operations meant for them and no others. */
  lemma {:induction false} QueuesDuringRun(c: Core, during: seq<Happening>)
    requires IsExecuting(c) && AllPossible(c, during) && NothingEnds(during)
    ensures ActAll(c, during).steering == PlayAll(c.steering, SteeringOps(during))
    ensures ActAll(c, during).followUp == PlayAll(c.followUp, FollowUpOps(during))
    decreases |during|
  {
    hide Act, Possible, EndsRun, Play;
    if during != [] {
      var a := during[0];
      ActOnQueues(c, a);
      ActWhileExecuting(c, a);
      QueuesDuringRun(Act(c, a), during[1..]);
      var s, f := SteeringOps(during[1..]), FollowUpOps(during[1..]);
      assert [] + s == s && [] + f == f;
      match a {
        case Steer(m) => PlayOne(c.steering, Enqueue(m), s);
        case FollowUp(m) => PlayOne(c.followUp, Enqueue(m), f);
        case PollSteeringQueue => PlayOne(c.steering, Drain, s);
        case PollFollowUpQueue => PlayOne(c.followUp, Drain, f);
        case SetModes(x, y) => PlayOne(c.steering, SetMode(x), s); PlayOne(c.followUp, SetMode(y), f);
        case _ =>
      }
    }
  }

  /** What the polls of a run were answered. */
  function SteeringPolls(log: seq<Interaction>): seq<seq<Message>> {
    if log == [] then []
    else
      var x := log[|log| - 1];
      SteeringPolls(log[..|log| - 1]) + if x.PollSteering? then [x.messages] else []
  }

  function FollowUpPolls(log: seq<Interaction>): seq<seq<Message>> {
    if log == [] then []
    else
      var x := log[|log| - 1];
      FollowUpPolls(log[..|log| - 1]) + if x.PollFollowUp? then [x.messages] else []
  }

  lemma FlattenSnoc(mss: seq<seq<Message>>, ms: seq<Message>)
    ensures Flatten(mss + [ms]) == Flatten(mss) + ms
  {
    FlattenConcat(mss, [ms]);
    assert [ms][1..] == [] && ms + [] == ms;
  }

  lemma {:induction false} DrainedIsPolled(log: seq<Interaction>)
    ensures multiset(Drained(log)) == multiset(Flatten(SteeringPolls(log))) + multiset(Flatten(FollowUpPolls(log)))
  {
    hide Flatten;
    if log == [] {
      NothingFlat();
    } else {
      var front, x := log[..|log| - 1], log[|log| - 1];
      DrainedIsPolled(front);
      assert SteeringPolls(front) + [] == SteeringPolls(front) && FollowUpPolls(front) + [] == FollowUpPolls(front);
      if x.PollSteering? || x.PollFollowUp? {
        FlattenSnoc(SteeringPolls(front), x.messages);
        FlattenSnoc(FollowUpPolls(front), x.messages);
      } else {
        assert Drained(front) + [] == Drained(front);
      }
    }
  }

  lemma NothingFlat()
    ensures Flatten([]) == []
  {
  }

  /** Where the messages a run starts with come from: the caller, or the front of a queue. */
  lemma EntryTakes(c: Core, entry: Entry)
    requires Enter(c, entry).1.Returned?
    ensures var (c1, launch) := Enter(c, entry);
            (multiset(Expected(launch.value.request)) + multiset(c1.steering.messages) + multiset(c1.followUp.messages)
             == multiset(Given(entry)) + multiset(c.steering.messages) + multiset(c.followUp.messages))
  {
    hide DrainedNow, Reduce;
    if entry.ByContinue? {
      ContinueStartsLegally(c);
      ContinueTakes(c);
    }
  }

  lemma ContinueTakes(c: Core)
    requires ContinueCall(c).1.Returned?
    ensures var (c1, launch) := ContinueCall(c);
            (multiset(Expected(launch.value.request)) + multiset(c1.steering.messages) + multiset(c1.followUp.messages)
             == multiset(c.steering.messages) + multiset(c.followUp.messages))
  {
    ContinueStartsLegally(c);
    var (c1, launch) := ContinueCall(c);
    var prompts := Expected(launch.value.request);
    assert multiset(prompts + c1.steering.messages) == multiset(prompts) + multiset(c1.steering.messages);
    assert multiset(prompts + c1.followUp.messages) == multiset(prompts) + multiset(c1.followUp.messages);
  }

  lemma QueueBalance(q: Queue, ops: seq<QueueOp>)
    ensures multiset(q.messages) + multiset(Enqueued(ops))
         == multiset(Flatten(Drains(q, ops))) + multiset(PlayAll(q, ops).messages)
  {
    hide Flatten, Drains, PlayAll, Enqueued;
    QueueConserves(q, ops);
    assert multiset(q.messages + Enqueued(ops)) == multiset(q.messages) + multiset(Enqueued(ops));
  }

  /** The polls of the loop are answered from the queues of the agent; behind `continue` from queued steering messages
      the first steering poll, once it is made, is answered with nothing. */
  ghost predicate PollsAnswered(c: Core, entry: Entry, log: seq<Interaction>, during: seq<Happening>)
    requires Enter(c, entry).1.Returned?
  {
    var (c1, launch) := Enter(c, entry);
    && SteeringPolls(log)
    == (if launch.value.skipInitialSteeringPoll && SteeringPolls(log) != [] then [[]] else [])
         + Drains(c1.steering, SteeringOps(during))
    && FollowUpPolls(log) == Drains(c1.followUp, FollowUpOps(during))
  }

  lemma AnsweredFromQueues(c: Core, entry: Entry, log: seq<Interaction>, during: seq<Happening>)
    requires Enter(c, entry).1.Returned? && PollsAnswered(c, entry, log, during)
    ensures var c1 := Enter(c, entry).0;
            (multiset(Drained(log))
             == multiset(Flatten(Drains(c1.steering, SteeringOps(during))))
              + multiset(Flatten(Drains(c1.followUp, FollowUpOps(during)))))
  {
    hide PromptCall, ContinueCall, Drains, Drained, SteeringPolls, FollowUpPolls, Flatten;
    var drains := Drains(Enter(c, entry).0.steering, SteeringOps(during));
    DrainedIsPolled(log);
    NothingFirst(drains);
  }

  lemma NothingFirst(mss: seq<seq<Message>>)
    ensures Flatten([[]] + mss) == Flatten(mss) && [] + mss == mss
  {
    assert ([[]] + mss)[1..] == mss && [] + Flatten(mss) == Flatten(mss);
  }

  /** The books of the two queues: before the entry, at the start of the run, enqueued, drained, and left over. */
  lemma Balance(
      expected: multiset<Message>, given: multiset<Message>, s0: multiset<Message>, f0: multiset<Message>,
      s1: multiset<Message>, f1: multiset<Message>, es: multiset<Message>, ef: multiset<Message>,
      ds: multiset<Message>, df: multiset<Message>, s2: multiset<Message>, f2: multiset<Message>)
    requires expected + s1 + f1 == given + s0 + f0
    requires s1 + es == ds + s2 && f1 + ef == df + f2
    ensures expected + (ds + df) + s2 + f2 == given + s0 + f0 + es + ef
  {
    assert expected + (ds + df) + s2 + f2 == expected + (ds + s2) + (df + f2);
    assert expected + (s1 + es) + (f1 + ef) == expected + s1 + f1 + es + ef;
  }

  /** The messages announced to a run in a piece of it, by its prompts and the polls, and not injected by then. */
  function NotYetInjected(request: Request, log: seq<Interaction>): seq<Message> {
    var announced := Expected(request) + Drained(log);
    if |InjectedMessages(log)| <= |announced| then announced[|InjectedMessages(log)|..] else []
  }

  /** At every point of a run, the messages injected are the first of those announced, and they are completed. The
      others all come from the last announcement, the answer to the last poll or else the prompts: they are what is left
      of it behind as many messages as have been completed since. So all have been injected if and only if at least as
      many have been completed since as it announced, as is the case from the provider call of a turn to its end. */
  lemma InjectedSoFar(
      request: Request, context: Context, mode: ToolMode, steering: seq<Message>, turns: seq<TurnEnv>, k: nat)
    requires AllAnswer(turns) && AllKeep(Rules(false, false), turns)
    requires k <= |RunOf(request, context, mode, steering, turns).log|
    ensures var log := RunOf(request, context, mode, steering, turns).log[..k];
            var last := LastAnnounced(Expected(request), log);
            && InjectedMessages(log) + NotYetInjected(request, log) == Expected(request) + Drained(log)
            && multiset(InjectedMessages(log)) <= multiset(Completed(Events(log)))
            && NotYetInjected(request, log) == Behind(last, EndsSince(log))
            && (NotYetInjected(request, log) == [] <==> |last| <= EndsSince(log))
            && (OpenTurns(log) == 1 && !BeforeCall(log) ==> |last| <= EndsSince(log))
  {
    hide Observe, RunOf, AllKeep, InjectedMessages, Drained, BeforeCall, OpenTurns, OpenMessages, TurnsEnded, Completed,
         Events, TurnMessages, TurnInjected, LastAnnounced, EndsSince;
    var rules := Rules(false, false);
    var w := Initial(context.messages, Expected(request));
    var log := RunOf(request, context, mode, steering, turns).log;
    RunKeepsProtocol(rules, request, context, mode, steering, turns);
    PrefixAccepted(rules, w, log, k);
    AlwaysBalanced(rules, context.messages, Expected(request), log[..k]);
    AlwaysShaped(rules, context.messages, Expected(request), log[..k]);
    AlwaysOwing(rules, context.messages, Expected(request), log[..k]);
    InjectedAreCompleted(log[..k]);
    var injected, owed := InjectedMessages(log[..k]), Observe(rules, w, log[..k]).owed;
    assert (injected + owed)[|injected|..] == owed;
  }

  /** What a history enqueues. */
  function Queued(actions: seq<Happening>): multiset<Message> {
    multiset(Enqueued(SteeringOps(actions))) + multiset(Enqueued(FollowUpOps(actions)))
  }

  /** While a run is on, whatever is steered and followed up before and during it, and however the modes are switched:
      the messages injected, those taken and not yet injected, and those still queued are, together, the prompts given,
      the messages that were queued, and the messages enqueued meanwhile. */
  lemma QueuesWhileRunning(
      c: Core, entry: Entry, tools: seq<Tool>, mode: ToolMode, steering: seq<Message>, turns: seq<TurnEnv>, k: nat,
      during: seq<Happening>)
    requires AllAnswer(turns) && AllKeep(Rules(false, false), turns)
    requires Inv(c) && Enter(c, entry).1.Returned?
    requires NothingEnds(during) && AllPossible(Enter(c, entry).0, during)
    requires k <= |StartedRun(c, entry, tools, mode, steering, turns).log|
    requires PollsAnswered(c, entry, StartedRun(c, entry, tools, mode, steering, turns).log[..k], during)
    ensures var log := StartedRun(c, entry, tools, mode, steering, turns).log[..k];
            var c' := ActAll(Enter(c, entry).0, during);
            && IsExecuting(c')
            && (multiset(InjectedMessages(log)) + multiset(NotYetInjected(Enter(c, entry).1.value.request, log))
                 + multiset(c'.steering.messages) + multiset(c'.followUp.messages)
                == multiset(Given(entry)) + multiset(c.steering.messages) + multiset(c.followUp.messages)
                 + Queued(during))
  {
    hide ActAll, AllPossible, RunOf, AllKeep, PromptCall, ContinueCall, InjectedMessages, Drained, Drains, PlayAll,
         Enqueued, SteeringOps, FollowUpOps, Flatten, PollsAnswered, Given, NotYetInjected, OpenTurns, BeforeCall,
         LastAnnounced, EndsSince;
    var (c1, launch) := Enter(c, entry);
    var request, context := launch.value.request, Context(c.state.messages, tools);
    var log := RunOf(request, context, mode, steering, turns).log[..k];
    EntryBegins(c, entry);
    EntryTakes(c, entry);
    WhileExecuting(c1, during);
    QueuesDuringRun(c1, during);
    QueueBalance(c1.steering, SteeringOps(during));
    QueueBalance(c1.followUp, FollowUpOps(during));
    AnsweredFromQueues(c, entry, log, during);
    InjectedSoFar(request, context, mode, steering, turns, k);
    var injected, taken := InjectedMessages(log), NotYetInjected(request, log);
    assert multiset(Expected(request) + Drained(log)) == multiset(Expected(request)) + multiset(Drained(log));
    assert multiset(injected + taken) == multiset(injected) + multiset(taken);
    var c' := ActAll(c1, during);
    Balance(multiset(Expected(request)), multiset(Given(entry)), multiset(c.steering.messages),
            multiset(c.followUp.messages), multiset(c1.steering.messages), multiset(c1.followUp.messages),
            multiset(Enqueued(SteeringOps(during))), multiset(Enqueued(FollowUpOps(during))),
            multiset(Flatten(Drains(c1.steering, SteeringOps(during)))),
            multiset(Flatten(Drains(c1.followUp, FollowUpOps(during)))),
            multiset(c'.steering.messages), multiset(c'.followUp.messages));
  }

  // ----- Behind a failure -----

  /** While a failure is handled, nothing is taken from the queues. */
  lemma ActOnQueuesWhileFailing(c: Core, a: Happening)
    requires IsFailing(c) && Possible(c, a) && !EndsRun(a)
    ensures var c' := Act(c, a);
            && IsFailing(c')
            && c'.steering.messages == c.steering.messages + (if a.Steer? then [a.message] else [])
            && c'.followUp.messages == c.followUp.messages + (if a.FollowUp? then [a.message] else [])
            && !a.PollSteeringQueue? && !a.PollFollowUpQueue?
  {
    hide Reduce, AfterDrain, FailureEvents;
  }

  lemma {:induction false} EnqueuedConcat(a: seq<QueueOp>, b: seq<QueueOp>)
    ensures Enqueued(a + b) == Enqueued(a) + Enqueued(b)
  {
    if a == [] {
      assert a + b == b && [] + Enqueued(b) == Enqueued(b);
    } else {
      EnqueuedConcat(a[1..], b);
      assert (a + b)[1..] == a[1..] + b;
      Associate(if a[0].Enqueue? then [a[0].message] else [], Enqueued(a[1..]), Enqueued(b));
    }
  }

  lemma EnqueuedByOne(a: Happening)
    ensures Enqueued(SteeringOp(a)) == if a.Steer? then [a.message] else []
    ensures Enqueued(FollowUpOp(a)) == if a.FollowUp? then [a.message] else []
  {
  }

  lemma EnqueuedFirst(actions: seq<Happening>)
    requires actions != []
    ensures var a, rest := actions[0], actions[1..];
            && Enqueued(SteeringOps(actions)) == (if a.Steer? then [a.message] else []) + Enqueued(SteeringOps(rest))
            && Enqueued(FollowUpOps(actions)) == (if a.FollowUp? then [a.message] else []) + Enqueued(FollowUpOps(rest))
  {
    hide Enqueued, SteeringOp, FollowUpOp;
    EnqueuedConcat(SteeringOp(actions[0]), SteeringOps(actions[1..]));
    EnqueuedConcat(FollowUpOp(actions[0]), FollowUpOps(actions[1..]));
    EnqueuedByOne(actions[0]);
  }

  lemma {:induction false} QueuesWhileFailing(c: Core, after: seq<Happening>)
    requires IsFailing(c) && AllPossible(c, after) && NothingEnds(after)
    ensures var c' := ActAll(c, after);
            && c'.steering.messages == c.steering.messages + Enqueued(SteeringOps(after))
            && c'.followUp.messages == c.followUp.messages + Enqueued(FollowUpOps(after))
    decreases |after|
  {
    hide Act, Possible, EndsRun, Enqueued, SteeringOps, FollowUpOps, IsFailing;
    if after == [] {
      NothingQueued();
      assert c.steering.messages + [] == c.steering.messages && c.followUp.messages + [] == c.followUp.messages;
    } else {
      var a, rest := after[0], after[1..];
      ActOnQueuesWhileFailing(c, a);
      QueuesWhileFailing(Act(c, a), rest);
      EnqueuedFirst(after);
      Associate(c.steering.messages, if a.Steer? then [a.message] else [], Enqueued(SteeringOps(rest)));
      Associate(c.followUp.messages, if a.FollowUp? then [a.message] else [], Enqueued(FollowUpOps(rest)));
    }
  }

  lemma NothingQueued()
    ensures Enqueued(SteeringOps([])) == [] && Enqueued(FollowUpOps([])) == []
  {
  }

  /** The whole history of a run that fails. Its failure handling comes to its end, or a listener throws in it. */
  function FailedHistory(
      during: seq<Happening>, error: string, left: multiset<string>, after: seq<Happening>, end: Happening)
    : seq<Happening>
  {
    during + [Throw(error, left)] + after + [end]
  }

  predicate EndsFailure(end: Happening) {
    end.Settle? || end == Fail(true)
  }

  lemma EndKeepsQueues(c: Core, end: Happening)
    requires IsFailing(c) && Possible(c, end) && EndsFailure(end)
    ensures var c' := Act(c, end); c'.activeRun.None? && c'.steering == c.steering && c'.followUp == c.followUp
  {
    hide FailureEvents, Reduce;
  }

  lemma QueuesBehindFailure(
      c: Core, during: seq<Happening>, error: string, left: multiset<string>, after: seq<Happening>, end: Happening)
    requires IsExecuting(c) && NothingEnds(during) && NothingEnds(after) && EndsFailure(end)
    requires AllPossible(c, FailedHistory(during, error, left, after, end))
    ensures AllPossible(c, during)
    ensures var c1, c' := ActAll(c, during), ActAll(c, FailedHistory(during, error, left, after, end));
            && c'.activeRun.None?
            && c'.steering.messages == c1.steering.messages + Enqueued(SteeringOps(after))
            && c'.followUp.messages == c1.followUp.messages + Enqueued(FollowUpOps(after))
  {
    hide ActAll, AllPossible, Enqueued, SteeringOps, FollowUpOps, EndsFailure, FailureMessage;
    var throw := Throw(error, left);
    ActAllConcat(c, during + [throw] + after, [end]);
    ActAllConcat(c, during + [throw], after);
    ActAllConcat(c, during, [throw]);
    WhileExecuting(c, during);
    ActOne(ActAll(c, during), throw);
    var c2 := Act(ActAll(c, during), throw);
    QueuesWhileFailing(c2, after);
    StillFailing(c2, after);
    ActOne(ActAll(c2, after), end);
    EndKeepsQueues(ActAll(c2, after), end);
  }

  lemma {:induction false} StillFailing(c: Core, after: seq<Happening>)
    requires IsFailing(c) && AllPossible(c, after) && NothingEnds(after)
    ensures IsFailing(ActAll(c, after))
    decreases |after|
  {
    hide Act, Possible, EndsRun, IsFailing;
    if after != [] {
      ActOnQueuesWhileFailing(c, after[0]);
      StillFailing(Act(c, after[0]), after[1..]);
    }
  }

  /** A run that fails anywhere, seen from the idle agent behind it, with whatever is steered and followed up before,
      during and behind the failure: the messages that are neither in the queues nor injected are those taken from the
      queues, or prompted with, and not yet injected; of all others none is lost and none is doubled. None at all is lost
      if and only if behind the last poll that was answered, or else since the beginning, at least as many messages had
      been completed as it had announced. */
  lemma QueuesLoseOnlyTaken(
      c: Core, entry: Entry, tools: seq<Tool>, mode: ToolMode, steering: seq<Message>, turns: seq<TurnEnv>, k: nat,
      during: seq<Happening>, error: string, left: multiset<string>, after: seq<Happening>, end: Happening)
    requires AllAnswer(turns) && AllKeep(Rules(false, false), turns)
    requires Inv(c) && Enter(c, entry).1.Returned?
    requires NothingEnds(during) && NothingEnds(after) && EndsFailure(end)
    requires AllPossible(Enter(c, entry).0, FailedHistory(during, error, left, after, end))
    requires k <= |StartedRun(c, entry, tools, mode, steering, turns).log|
    requires PollsAnswered(c, entry, StartedRun(c, entry, tools, mode, steering, turns).log[..k], during)
    ensures var request := Enter(c, entry).1.value.request;
            var log := StartedRun(c, entry, tools, mode, steering, turns).log[..k];
            var c' := ActAll(Enter(c, entry).0, FailedHistory(during, error, left, after, end));
            && c'.activeRun.None?
            && (multiset(InjectedMessages(log)) + multiset(NotYetInjected(request, log))
                 + multiset(c'.steering.messages) + multiset(c'.followUp.messages)
                == multiset(Given(entry)) + multiset(c.steering.messages) + multiset(c.followUp.messages)
                 + Queued(during) + Queued(after))
            && (NotYetInjected(request, log) == [] <==> |LastAnnounced(Expected(request), log)| <= EndsSince(log))
  {
    hide ActAll, AllPossible, RunOf, AllKeep, PromptCall, ContinueCall, InjectedMessages, Drained, Enqueued, SteeringOps,
         FollowUpOps, PollsAnswered, Given, NotYetInjected, OpenTurns, BeforeCall, LastAnnounced, EndsSince,
         FailedHistory, EndsFailure;
    var (c1, launch) := Enter(c, entry);
    EntryBegins(c, entry);
    QueuesBehindFailure(c1, during, error, left, after, end);
    QueuesWhileRunning(c, entry, tools, mode, steering, turns, k, during);
    InjectedSoFar(launch.value.request, Context(c.state.messages, tools), mode, steering, turns, k);
    var s, f := ActAll(c1, during).steering.messages, ActAll(c1, during).followUp.messages;
    assert multiset(s + Enqueued(SteeringOps(after))) == multiset(s) + multiset(Enqueued(SteeringOps(after)));
    assert multiset(f + Enqueued(FollowUpOps(after))) == multiset(f) + multiset(Enqueued(FollowUpOps(after)));
  }

  lemma AtTheStart()
    ensures var log := [Emit(AgentStart)];
            && Events(log) == [AgentStart] && Completed([AgentStart]) == []
            && SteeringPolls(log) == [] && FollowUpPolls(log) == []
            && InjectedMessages(log) == [] && Drained(log) == []
            && Fails(log, Listener(0)) && Left(log, Listener(0)) == multiset{}
    ensures var during := [Deliver(AgentStart)];
            NothingEnds(during) && SteeringOps(during) == [] && FollowUpOps(during) == []
    ensures Delivered([Deliver(AgentStart)]) == [AgentStart]
  {
    assert [Emit(AgentStart)][..0] == [] && [AgentStart][..0] == [] && [Deliver(AgentStart)][1..] == [];
  }

  lemma BeginsWithStart(
      request: Request, context: Context, mode: ToolMode, steering: seq<Message>, turns: seq<TurnEnv>)
    requires AllAnswer(turns) && AllKeep(Rules(false, false), turns)
    ensures var log := RunOf(request, context, mode, steering, turns).log; log != [] && log[..1] == [Emit(AgentStart)]
  {
    hide Observe, RunOf, AllKeep, InPlace;
    var log := RunOf(request, context, mode, steering, turns).log;
    NeverEmpty(request, context, mode, steering, turns);
    RunKeepsProtocol(Rules(false, false), request, context, mode, steering, turns);
    TraceGrammar(Rules(false, false), context.messages, Expected(request), log, 0);
  }

  lemma {:induction false} FailsEnqueueNothing(after: seq<Happening>)
    requires forall k :: 0 <= k < |after| ==> after[k] == Fail(false)
    ensures NothingEnds(after) && Enqueued(SteeringOps(after)) == [] && Enqueued(FollowUpOps(after)) == []
  {
    hide Enqueued, SteeringOps, FollowUpOps;
    if after == [] {
      NothingQueued();
    } else {
      EnqueuedFirst(after);
      FailsEnqueueNothing(after[1..]);
    }
  }

  /** It happens, at the very start of every run of this kind: `continue` behind an assistant message takes the message
      that is queued for steering and prompts with it; a listener refuses `agent_start`; and behind the failure handling
      the message is neither in a queue nor in the transcript. */
  lemma AQueuedMessageIsLost(
      c: Core, m: Message, tools: seq<Tool>, mode: ToolMode, steering: seq<Message>, turns: seq<TurnEnv>, error: string)
    returns (during: seq<Happening>, after: seq<Happening>)
    requires AllAnswer(turns) && AllKeep(Rules(false, false), turns)
    requires Inv(c) && c.activeRun.None? && c.steering.messages == [m]
    requires c.state.messages != [] && c.state.messages[|c.state.messages| - 1].Assistant?
    ensures Enter(c, ByContinue).1 == Returned(Launch(Prompt([m]), true))
    ensures var run := StartedRun(c, ByContinue, tools, mode, steering, turns);
            && run.log != [] && Fails(run.log[..1], Listener(0))
            && Delivered(during) == Events(run.log[..1]) && PollsAnswered(c, ByContinue, run.log[..1], during)
            && NotYetInjected(Prompt([m]), run.log[..1]) == [m]
    ensures var c1 := Enter(c, ByContinue).0;
            && AllPossible(c1, FailedHistory(during, error, multiset{}, after, Settle))
            && var c' := ActAll(c1, FailedHistory(during, error, multiset{}, after, Settle));
               && c'.state.messages == c.state.messages + [FailureMessage(c.state.model, error, false)]
               && c'.steering.messages == [] && c'.followUp.messages == c.followUp.messages
  {
    hide ActAll, AllPossible, RunOf, AllKeep, InjectedMessages, Drained, Enqueued, SteeringOps, FollowUpOps,
         LastAnnounced, EndsSince, FailureMessage, Fails, Left, Events, Completed, SteeringPolls, FollowUpPolls,
         Delivered, AgentEnds, NoRaceAt;
    var (c1, launch) := Enter(c, ByContinue);
    assert c1.steering.messages == [] && c1.followUp == c.followUp;
    EntryBegins(c, ByContinue);
    BeginsWithStart(Prompt([m]), Context(c.state.messages, tools), mode, steering, turns);
    AtTheStart();
    assert [m] + [] == [m];
    during := [Deliver(AgentStart)];
    DeliveriesDeliver(c1, [AgentStart]);
    assert Deliveries([AgentStart]) == during by { assert [AgentStart][1..] == []; }
    WhileExecuting(c1, during);
    after := FailureIsHandled(c1, during, error, multiset{});
    FailsEnqueueNothing(after);
    QueuesBehindFailure(c1, during, error, multiset{}, after, Settle);
    QueuesDuringRun(c1, during);
    FailedAgentRun(c, ByContinue, tools, mode, steering, turns, 1, Listener(0), during, error, after);
    assert c.state.messages + [] == c.state.messages && Abort !in during;
  }

  /** A run that is over has injected everything it has taken: no message is lost and none is doubled. */
  lemma QueuesLoseNothing(
      c: Core, entry: Entry, tools: seq<Tool>, mode: ToolMode, steering: seq<Message>, turns: seq<TurnEnv>,
      during: seq<Happening>)
    requires AllAnswer(turns) && AllKeep(Rules(false, false), turns)
    requires Inv(c) && Enter(c, entry).1.Returned? && StartedRun(c, entry, tools, mode, steering, turns).ended
    requires NothingEnds(during) && AllPossible(Enter(c, entry).0, during + [Return])
    requires PollsAnswered(c, entry, StartedRun(c, entry, tools, mode, steering, turns).log, during)
    ensures var log := StartedRun(c, entry, tools, mode, steering, turns).log;
            var c' := ActAll(Enter(c, entry).0, during + [Return]);
            (multiset(InjectedMessages(log)) + multiset(c'.steering.messages) + multiset(c'.followUp.messages)
             == multiset(Given(entry)) + multiset(c.steering.messages) + multiset(c.followUp.messages) + Queued(during))
  {
    hide ActAll, AllPossible, RunOf, AllKeep, PromptCall, ContinueCall, InjectedMessages, Drained, Enqueued, SteeringOps,
         FollowUpOps, PollsAnswered, Given, Events, Completed, MessagesOf, ClosedTurns;
    var (c1, launch) := Enter(c, entry);
    var request, context := launch.value.request, Context(c.state.messages, tools);
    var log := RunOf(request, context, mode, steering, turns).log;
    assert log[..|log|] == log;
    EntryBegins(c, entry);
    ActAllConcat(c1, during, [Return]);
    WhileExecuting(c1, during);
    ActOne(ActAll(c1, during), Return);
    QueuesWhileRunning(c, entry, tools, mode, steering, turns, |log|, during);
    RunsConserveMessages(request, context, mode, steering, turns);
    assert multiset(InjectedMessages(log)) + multiset([]) == multiset(InjectedMessages(log));
  }

  // ----- How much a poll finds -----

  /** Nobody switches the mode of the queue to `all`. */
  ghost predicate StaysOneAtATime(actions: seq<Happening>) {
    forall k :: 0 <= k < |actions| && actions[k].SetModes? ==>
      actions[k].steeringMode.OneAtATime? && actions[k].followUpMode.OneAtATime?
  }

  lemma {:induction false} OpsStayOneAtATime(actions: seq<Happening>)
    requires StaysOneAtATime(actions)
    ensures KeepOne(SteeringOps(actions)) && KeepOne(FollowUpOps(actions))
  {
    if actions != [] {
      assert forall k :: 0 < k < |actions| ==> actions[k] == actions[1..][k - 1];
      OpsStayOneAtATime(actions[1..]);
      assert KeepOne(SteeringOp(actions[0])) && KeepOne(FollowUpOp(actions[0]));
    }
  }

  lemma {:induction false} PollsAreThere(log: seq<Interaction>, k: nat)
    requires k < |log|
    ensures log[k].PollSteering? ==> log[k].messages in SteeringPolls(log)
    ensures log[k].PollFollowUp? ==> log[k].messages in FollowUpPolls(log)
  {
    var n := |log| - 1;
    if k < n {
      PollsAreThere(log[..n], k);
    }
  }

  /** With both queues in mode `one-at-a-time`, and nobody switching it, no poll of a run finds more than one message,
      and `continue` prompts with no more than one. */
  lemma PollsFindOneAtATime(
      c: Core, entry: Entry, tools: seq<Tool>, mode: ToolMode, steering: seq<Message>, turns: seq<TurnEnv>, k: nat,
      during: seq<Happening>, i: nat)
    requires AllAnswer(turns) && Enter(c, entry).1.Returned?
    requires c.steering.mode.OneAtATime? && c.followUp.mode.OneAtATime? && StaysOneAtATime(during)
    requires i < k <= |StartedRun(c, entry, tools, mode, steering, turns).log|
    requires PollsAnswered(c, entry, StartedRun(c, entry, tools, mode, steering, turns).log[..k], during)
    ensures var x := StartedRun(c, entry, tools, mode, steering, turns).log[i];
            x.PollSteering? || x.PollFollowUp? ==> |x.messages| <= 1
    ensures entry.ByContinue? ==> |Expected(Enter(c, entry).1.value.request)| <= 1
  {
    hide RunOf, SteeringPolls, FollowUpPolls, SteeringOps, FollowUpOps, Drains, StaysOneAtATime, KeepOne;
    var log := StartedRun(c, entry, tools, mode, steering, turns).log[..k];
    var c1 := Enter(c, entry).0;
    OpsStayOneAtATime(during);
    OneEach(c1.steering, SteeringOps(during));
    OneEach(c1.followUp, FollowUpOps(during));
    assert log[i] == StartedRun(c, entry, tools, mode, steering, turns).log[i];
    PollsAreThere(log, i);
    ContinueTakesByMode(c);
  }
}
