/** `PendingMessageQueue`: the steering and follow-up queues of an agent. */
module Queues {
  import opened Types

  datatype QueueMode = All | OneAtATime

  datatype Queue = Queue(messages: seq<Message>, mode: QueueMode)

  function DrainedNow(q: Queue): seq<Message> {
    if q.mode.All? then q.messages else if q.messages == [] then [] else [q.messages[0]]
  }

  function AfterDrain(q: Queue): Queue {
    q.(messages := q.messages[|DrainedNow(q)|..])
  }

  class PendingMessageQueue {
    var messages: seq<Message>
    var mode: QueueMode

    function Contents(): Queue
      reads this
    {
      Queue(messages, mode)
    }

    constructor (mode: QueueMode)
      ensures Contents() == Queue([], mode)
    {
      this.messages, this.mode := [], mode;
    }

    method Enqueue(message: Message)
      modifies this
      ensures Contents() == old(Contents()).(messages := old(messages) + [message])
    {
      messages := messages + [message];
    }

    method HasItems() returns (b: bool)
      ensures b <==> messages != []
    {
      b := |messages| > 0;
    }

    method Drain() returns (drained: seq<Message>)
      modifies this`messages
      ensures drained == DrainedNow(old(Contents()))
      ensures Contents() == AfterDrain(old(Contents()))
      ensures drained + messages == old(messages)
      ensures old(messages) != [] ==> drained != []
      ensures mode == All ==> messages == []
      ensures mode == OneAtATime ==> |drained| <= 1
    {
      if mode == All {
        drained := messages;
        messages := [];
        return;
      }
      if |messages| == 0 {
        return [];
      }
      drained := [messages[0]];
      messages := messages[1..];
    }

    method Clear()
      modifies this`messages
      ensures Contents() == old(Contents()).(messages := [])
    {
      messages := [];
    }
  }

  // ----- Histories -----

  datatype QueueOp = Enqueue(message: Message) | Drain | SetMode(mode: QueueMode)

  function Play(q: Queue, op: QueueOp): Queue {
    match op
    case Enqueue(m) => q.(messages := q.messages + [m])
    case Drain => AfterDrain(q)
    case SetMode(mode) => q.(mode := mode)
  }

  function PlayAll(q: Queue, ops: seq<QueueOp>): Queue
    decreases |ops|
  {
    if ops == [] then q else PlayAll(Play(q, ops[0]), ops[1..])
  }

  /** What each drain of a history hands out. */
  function Drains(q: Queue, ops: seq<QueueOp>): seq<seq<Message>>
    decreases |ops|
  {
    if ops == [] then []
    else (if ops[0].Drain? then [DrainedNow(q)] else []) + Drains(Play(q, ops[0]), ops[1..])
  }

  function Enqueued(ops: seq<QueueOp>): seq<Message> {
    if ops == [] then [] else (if ops[0].Enqueue? then [ops[0].message] else []) + Enqueued(ops[1..])
  }

  function Flatten(mss: seq<seq<Message>>): seq<Message> {
    if mss == [] then [] else mss[0] + Flatten(mss[1..])
  }

  lemma {:induction false} FlattenConcat(a: seq<seq<Message>>, b: seq<seq<Message>>)
    ensures Flatten(a + b) == Flatten(a) + Flatten(b)
  {
    if a == [] {
      assert a + b == b;
    } else {
      FlattenConcat(a[1..], b);
      assert (a + b)[1..] == a[1..] + b;
    }
  }

  /** Over any interleaving of enqueues, drains and mode changes, everything that was ever in the queue is
      everything handed out followed by what remains, in order. */
  lemma {:induction false} QueueConserves(q: Queue, ops: seq<QueueOp>)
    ensures q.messages + Enqueued(ops) == Flatten(Drains(q, ops)) + PlayAll(q, ops).messages
    decreases |ops|
  {
    if ops == [] {
      assert q.messages + [] == [] + q.messages;
    } else {
      var next := Play(q, ops[0]);
      QueueConserves(next, ops[1..]);
      match ops[0] {
        case Enqueue(m) =>
          Associate(q.messages, [m], Enqueued(ops[1..]));
          assert [] + Drains(next, ops[1..]) == Drains(next, ops[1..]);
        case Drain =>
          var out, rest := DrainedNow(q), Drains(next, ops[1..]);
          assert q.messages == out + next.messages;
          assert [] + Enqueued(ops[1..]) == Enqueued(ops[1..]);
          assert ([out] + rest)[1..] == rest;
          Associate(out, next.messages, Enqueued(ops[1..]));
          Associate(out, Flatten(rest), PlayAll(next, ops[1..]).messages);
        case SetMode(_) =>
          assert [] + Enqueued(ops[1..]) == Enqueued(ops[1..]);
          assert [] + Drains(next, ops[1..]) == Drains(next, ops[1..]);
      }
    }
  }

  // ----- What each drain hands out -----

  /** The mode that a history leaves: the last one set. */
  function ModeAfter(mode: QueueMode, ops: seq<QueueOp>): QueueMode {
    if ops == [] then mode
    else if ops[|ops| - 1].SetMode? then ops[|ops| - 1].mode
    else ModeAfter(mode, ops[..|ops| - 1])
  }

  function DrainCount(ops: seq<QueueOp>): nat {
    if ops == [] then 0 else DrainCount(ops[..|ops| - 1]) + if ops[|ops| - 1].Drain? then 1 else 0
  }

  lemma {:induction false} PlaySnoc(q: Queue, ops: seq<QueueOp>, op: QueueOp)
    ensures PlayAll(q, ops + [op]) == Play(PlayAll(q, ops), op)
    ensures Drains(q, ops + [op]) == Drains(q, ops) + (if op.Drain? then [DrainedNow(PlayAll(q, ops))] else [])
    decreases |ops|
  {
    hide Play, DrainedNow;
    if ops == [] {
      assert [] + [op] == [op] && [op][1..] == [];
    } else {
      assert (ops + [op])[1..] == ops[1..] + [op];
      PlaySnoc(Play(q, ops[0]), ops[1..], op);
      Associate(if ops[0].Drain? then [DrainedNow(q)] else [], Drains(Play(q, ops[0]), ops[1..]),
                if op.Drain? then [DrainedNow(PlayAll(q, ops))] else []);
    }
  }

  lemma {:induction false} ModeIsLastSet(q: Queue, ops: seq<QueueOp>)
    ensures PlayAll(q, ops).mode == ModeAfter(q.mode, ops) && |Drains(q, ops)| == DrainCount(ops)
  {
    if ops != [] {
      var front, op := ops[..|ops| - 1], ops[|ops| - 1];
      assert front + [op] == ops;
      ModeIsLastSet(q, front);
      PlaySnoc(q, front, op);
    }
  }

  lemma {:induction false} DrainsGrow(q: Queue, a: seq<QueueOp>, b: seq<QueueOp>)
    ensures Drains(q, a) <= Drains(q, a + b)
  {
    if b == [] {
      assert a + b == a;
    } else {
      var front, op := b[..|b| - 1], b[|b| - 1];
      assert a + b == (a + front) + [op];
      DrainsGrow(q, a, front);
      PlaySnoc(q, a + front, op);
    }
  }

  /** Over any history: a drain in mode `all` hands out everything that has been queued and not yet been handed out, in
      order; one in mode `one-at-a-time` the first message of that, if there is any, and no other. */
  lemma DrainsByMode(q: Queue, ops: seq<QueueOp>, j: nat)
    requires j < |ops| && ops[j].Drain?
    ensures var n, drains := DrainCount(ops[..j]), Drains(q, ops);
            && n < |drains|
            && var queued, out := q.messages + Enqueued(ops[..j]), Flatten(drains[..n]);
               && out <= queued
               && var waiting := queued[|out|..];
                  if ModeAfter(q.mode, ops[..j]).All? then drains[n] == waiting
                  else drains[n] == if waiting == [] then [] else [waiting[0]]
  {
    hide Flatten, Enqueued, Drains, PlayAll, ModeAfter, DrainCount;
    var before, n := ops[..j], DrainCount(ops[..j]);
    ModeIsLastSet(q, before);
    PlaySnoc(q, before, Drain);
    assert before + [Drain] + ops[j + 1..] == ops;
    DrainsGrow(q, before + [Drain], ops[j + 1..]);
    assert Drains(q, ops)[..n] == Drains(q, before);
    QueueConserves(q, before);
    var out, rest := Flatten(Drains(q, before)), PlayAll(q, before);
    assert (out + rest.messages)[|out|..] == rest.messages;
  }

  /** Nothing sets the mode to `all`. */
  ghost predicate KeepOne(ops: seq<QueueOp>) {
    forall k :: 0 <= k < |ops| && ops[k].SetMode? ==> ops[k].mode.OneAtATime?
  }

  /** As long as the mode of a queue stays `one-at-a-time`, no drain hands out more than one message. */
  lemma {:induction false} OneEach(q: Queue, ops: seq<QueueOp>)
    requires q.mode.OneAtATime? && KeepOne(ops)
    ensures forall n :: 0 <= n < |Drains(q, ops)| ==> |Drains(q, ops)[n]| <= 1
    decreases |ops|
  {
    if ops != [] {
      assert forall k :: 0 < k < |ops| ==> ops[k] == ops[1..][k - 1];
      OneEach(Play(q, ops[0]), ops[1..]);
    }
  }
}
