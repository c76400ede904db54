/**
 * The demo applications' `SessionRouter`: handler tables keyed by event
 * type, message type and correlation id, a list of exception handlers, and
 * `processEvent`, which calls the registered handlers in a fixed order and
 * hands an exception from any of them to every exception handler.
 *
 * Handlers are identified by number.  What a handler does when it is
 * called is an input (`Behaviour`): whether the call raises, and which
 * changes it makes to the router's tables first (the demo applications'
 * handlers add and remove correlation-id handlers from inside
 * `processEvent`).  Every table lookup is made when the source makes it,
 * so a change takes effect for the lookups that follow it.  The router
 * records the calls it makes, in order.
 */
module SessionRouter {
  import opened Wrappers

  /** A message: its correlation ids, in order, and its message type (a Name, by handle). */
  datatype Message = Message(correlationIds: seq<nat>, messageType: nat)

  datatype Event = Event(eventType: int, messages: seq<Message>)

  /** A handler call; a message handler call names the message by its position in the event. */
  datatype Invocation =
    | EventHandlerCall(handler: nat)
    | MessageHandlerCall(handler: nat, message: nat)
    | ExceptionHandlerCall(handler: nat, cause: Invocation)

  /** The handler a table holds for a key, if any (`dict.get`). */
  function Get<K>(table: map<K, nat>, key: K): (r: Option<nat>)
    ensures r.Some? <==> key in table
    ensures r.Some? ==> r.value == table[key]
  {
    if key in table then Some(table[key]) else None
  }

  // ----- the router's tables and the changes handlers make to them -----

  /** The tables `processEvent` reads, as the router holds them. */
  datatype Tables = Tables(
    eventHandlers: map<int, nat>,
    eventTypeMessageHandlers: map<int, nat>,
    messageTypeHandlers: map<nat, nat>,
    cidHandlers: map<nat, nat>,
    exceptionHandlers: seq<nat>)

  /** A change a running handler makes through one of the router's `add*` / `remove*` methods. */
  datatype Edit =
    | SetEventHandler(eventType: int, handler: nat)
    | SetEventTypeMessageHandler(eventType: int, handler: nat)
    | SetMessageTypeHandler(messageType: nat, handler: nat)
    | SetCidHandler(correlationId: nat, handler: nat)
    | RemoveCidHandler(correlationId: nat)
    | AppendExceptionHandler(handler: nat)

  /** What the handlers do: the calls that raise, and the changes each call makes before it returns or raises. */
  datatype Behaviour = Behaviour(raising: set<Invocation>, edits: map<Invocation, seq<Edit>>)

  function EditsOf(b: Behaviour, call: Invocation): seq<Edit> {
    if call in b.edits then b.edits[call] else []
  }

  /** The tables after one change. */
  function Apply(t: Tables, e: Edit): Tables {
    match e
    case SetEventHandler(eventType, h) => t.(eventHandlers := t.eventHandlers[eventType := h])
    case SetEventTypeMessageHandler(eventType, h) =>
      t.(eventTypeMessageHandlers := t.eventTypeMessageHandlers[eventType := h])
    case SetMessageTypeHandler(messageType, h) => t.(messageTypeHandlers := t.messageTypeHandlers[messageType := h])
    case SetCidHandler(cid, h) => t.(cidHandlers := t.cidHandlers[cid := h])
    case RemoveCidHandler(cid) => t.(cidHandlers := t.cidHandlers - {cid})
    case AppendExceptionHandler(h) => t.(exceptionHandlers := t.exceptionHandlers + [h])
  }

  /** The tables after the changes, in order. */
  function ApplyAll(t: Tables, es: seq<Edit>): Tables
    decreases |es|
  {
    if es == [] then t else Apply(ApplyAll(t, es[..|es| - 1]), es[|es| - 1])
  }

  // ----- processEvent, step by step -----

  /** Where `processEvent` stands: the tables, every call made so far, and the call that raised, if one has. */
  datatype Run = Run(tables: Tables, made: seq<Invocation>, raisedBy: Option<Invocation>)

  /** One handler call: its changes are applied and it is recorded; it may raise. */
  function Invoke(run: Run, call: Invocation, b: Behaviour): Run {
    Run(ApplyAll(run.tables, EditsOf(b, call)), run.made + [call], if call in b.raising then Some(call) else None)
  }

  /** A message handler found by a lookup is called for message `i`, unless there is none or a call has raised. */
  function InvokeIf(run: Run, handler: Option<nat>, i: nat, b: Behaviour): Run {
    if run.raisedBy.None? && handler.Some? then Invoke(run, MessageHandlerCall(handler.value, i), b) else run
  }

  /** `for cid in message.correlationIds()`: each id's handler, looked up when its turn comes. */
  function CidRun(run: Run, cids: seq<nat>, i: nat, b: Behaviour): Run
    decreases |cids|
  {
    if cids == [] || run.raisedBy.Some? then run
    else CidRun(InvokeIf(run, Get(run.tables.cidHandlers, cids[0]), i, b), cids[1..], i, b)
  }

  /**
   * One message: its correlation ids' handlers, then the event type's
   * message handler (looked up once for the event), then the message type's
   * handler, looked up after the others have run.
   */
  function MessageRun(run: Run, m: Message, i: nat, eventTypeHandler: Option<nat>, b: Behaviour): Run {
    var afterCids := CidRun(run, m.correlationIds, i, b);
    var afterEventType := InvokeIf(afterCids, eventTypeHandler, i, b);
    InvokeIf(afterEventType, Get(afterEventType.tables.messageTypeHandlers, m.messageType), i, b)
  }

  /** `for message in event`, from message `i` on, until a handler raises. */
  function MessagesRun(run: Run, ms: seq<Message>, i: nat, eventTypeHandler: Option<nat>, b: Behaviour): Run
    decreases |ms| - i
  {
    if i >= |ms| || run.raisedBy.Some? then run
    else MessagesRun(MessageRun(run, ms[i], i, eventTypeHandler, b), ms, i + 1, eventTypeHandler, b)
  }

  /**
   * The `try` block: the event type's event handler, then the event type's
   * message handler, looked up after the event handler has run, for every
   * message.
   */
  function TryRun(run: Run, event: Event, b: Behaviour): Run {
    var afterEvent :=
      if run.raisedBy.None? && event.eventType in run.tables.eventHandlers
      then Invoke(run, EventHandlerCall(run.tables.eventHandlers[event.eventType]), b)
      else run;
    if afterEvent.raisedBy.Some? then afterEvent
    else MessagesRun(afterEvent, event.messages, 0,
                     Get(afterEvent.tables.eventTypeMessageHandlers, event.eventType), b)
  }

  /** The `except` block: each of `handlers` is handed the exception, in order, until one raises. */
  function ExceptRun(run: Run, handlers: seq<nat>, cause: Invocation, b: Behaviour): Run
    decreases |handlers|
  {
    if handlers == [] || run.raisedBy.Some? then run
    else ExceptRun(Invoke(run, ExceptionHandlerCall(handlers[0], cause), b), handlers[1..], cause, b)
  }

  /**
   * `processEvent` from tables `t` after the calls `made`: the state it
   * leaves, and Err with the exception handler call that raised when one
   * escapes.
   */
  function ProcessRun(t: Tables, made: seq<Invocation>, event: Event, b: Behaviour): (Run, Result<(), Invocation>) {
    var tried := TryRun(Run(t, made, None), event, b);
    if tried.raisedBy.None? then (tried, Ok(()))
    else
      var handled := ExceptRun(Run(tried.tables, tried.made, None), tried.tables.exceptionHandlers,
                               tried.raisedBy.value, b);
      (handled, if handled.raisedBy.Some? then Err(handled.raisedBy.value) else Ok(()))
  }

  // ----- calls made until one raises -----

  /**
   * Handler calls made in order until one raises: the calls made, and
   * whether the last of them raised.
   */
  function RunUntilRaise(plan: seq<Invocation>, raising: set<Invocation>): (r: (seq<Invocation>, bool))
    decreases |plan|
  {
    if plan == [] then ([], false)
    else if plan[0] in raising then ([plan[0]], true)
    else
      var rest := RunUntilRaise(plan[1..], raising);
      ([plan[0]] + rest.0, rest.1)
  }

  predicate NoneRaise(calls: seq<Invocation>, raising: set<Invocation>) {
    forall k :: 0 <= k < |calls| ==> calls[k] !in raising
  }

  /**
   * The calls made are a prefix of the plan.  When one raises it is the
   * last made and none before it raised; when none raises, every planned
   * call is made.
   */
  lemma {:induction false} RunUntilRaiseStops(plan: seq<Invocation>, raising: set<Invocation>)
    ensures var (made, raised) := RunUntilRaise(plan, raising);
            |made| <= |plan| && made == plan[..|made|] &&
            (raised ==> |made| > 0 && made[|made| - 1] in raising && NoneRaise(made[..|made| - 1], raising)) &&
            (!raised ==> made == plan && NoneRaise(plan, raising))
    decreases |plan|
  {
    if plan != [] && plan[0] !in raising {
      RunUntilRaiseStops(plan[1..], raising);
      var rest := RunUntilRaise(plan[1..], raising);
      var made := [plan[0]] + rest.0;
      assert made[1..] == rest.0;
      if rest.1 {
        assert made[..|made| - 1] == [plan[0]] + rest.0[..|rest.0| - 1];
      } else {
        assert plan == [plan[0]] + plan[1..];
      }
    }
  }

  /** Running two plans one after the other: the second runs only when nothing in the first raised. */
  lemma {:induction false} RunSeq(first: seq<Invocation>, second: seq<Invocation>, raising: set<Invocation>)
    ensures RunUntilRaise(first + second, raising) ==
            if RunUntilRaise(first, raising).1 then RunUntilRaise(first, raising)
            else (first + RunUntilRaise(second, raising).0, RunUntilRaise(second, raising).1)
    decreases |first|
  {
    if first == [] {
      assert first + second == second;
      assert first + RunUntilRaise(second, raising).0 == RunUntilRaise(second, raising).0;
    } else {
      assert (first + second)[0] == first[0];
      assert (first + second)[1..] == first[1..] + second;
      RunSeq(first[1..], second, raising);
      if first[0] !in raising && !RunUntilRaise(first[1..], raising).1 {
        RunUntilRaiseStops(first[1..], raising);
        assert [first[0]] + (first[1..] + RunUntilRaise(second, raising).0) == first + RunUntilRaise(second, raising).0;
      }
    }
  }

  /** A run over a single call makes it, and raises when it does. */
  lemma RunOne(call: Invocation, raising: set<Invocation>)
    ensures RunUntilRaise([call], raising) == ([call], call in raising)
  {
    assert [call][1..] == [] && [call] + [] == [call];
  }

  /**
   * The calls made since `base` are made in order until one raises: run
   * through `RunUntilRaise` they are all made, and the last of them raised
   * exactly when the run reports a raise, which names that call.
   */
  predicate StopsAt(run: Run, base: seq<Invocation>, raising: set<Invocation>) {
    && base <= run.made
    && RunUntilRaise(run.made[|base|..], raising) == (run.made[|base|..], run.raisedBy.Some?)
    && (run.raisedBy.Some? ==> |run.made| > |base| && run.raisedBy.value == run.made[|run.made| - 1])
  }

  /** A run that has not raised, continued by one that stops at its first raise, stops at its first raise. */
  lemma StopsTrans(r1: Run, r2: Run, base: seq<Invocation>, raising: set<Invocation>)
    requires StopsAt(r1, base, raising) && r1.raisedBy.None? && StopsAt(r2, r1.made, raising)
    ensures StopsAt(r2, base, raising)
  {
    var c1 := r1.made[|base|..];
    var c2 := r2.made[|r1.made|..];
    assert r2.made[|base|..] == c1 + c2;
    RunSeq(c1, c2, raising);
  }

  lemma InvokeStops(run: Run, call: Invocation, b: Behaviour)
    ensures StopsAt(Invoke(run, call, b), run.made, b.raising)
  {
    assert Invoke(run, call, b).made[|run.made|..] == [call];
    RunOne(call, b.raising);
  }

  lemma InvokeIfStops(run: Run, h: Option<nat>, i: nat, b: Behaviour)
    requires run.raisedBy.None?
    ensures StopsAt(InvokeIf(run, h, i, b), run.made, b.raising)
  {
    if h.Some? {
      InvokeStops(run, MessageHandlerCall(h.value, i), b);
    } else {
      assert run.made[|run.made|..] == [];
    }
  }

  lemma {:induction false} CidRunStops(run: Run, cids: seq<nat>, i: nat, b: Behaviour)
    requires run.raisedBy.None?
    ensures StopsAt(CidRun(run, cids, i, b), run.made, b.raising)
    decreases |cids|
  {
    if cids == [] {
      assert run.made[|run.made|..] == [];
    } else {
      var r1 := InvokeIf(run, Get(run.tables.cidHandlers, cids[0]), i, b);
      InvokeIfStops(run, Get(run.tables.cidHandlers, cids[0]), i, b);
      if r1.raisedBy.None? {
        CidRunStops(r1, cids[1..], i, b);
        StopsTrans(r1, CidRun(r1, cids[1..], i, b), run.made, b.raising);
      }
    }
  }

  lemma MessageRunStops(run: Run, m: Message, i: nat, eventTypeHandler: Option<nat>, b: Behaviour)
    requires run.raisedBy.None?
    ensures StopsAt(MessageRun(run, m, i, eventTypeHandler, b), run.made, b.raising)
  {
    var afterCids := CidRun(run, m.correlationIds, i, b);
    CidRunStops(run, m.correlationIds, i, b);
    if afterCids.raisedBy.None? {
      var afterEventType := InvokeIf(afterCids, eventTypeHandler, i, b);
      InvokeIfStops(afterCids, eventTypeHandler, i, b);
      StopsTrans(afterCids, afterEventType, run.made, b.raising);
      if afterEventType.raisedBy.None? {
        var h := Get(afterEventType.tables.messageTypeHandlers, m.messageType);
        InvokeIfStops(afterEventType, h, i, b);
        StopsTrans(afterEventType, InvokeIf(afterEventType, h, i, b), run.made, b.raising);
      }
    }
  }

  lemma {:induction false} MessagesRunStops(run: Run, ms: seq<Message>, i: nat, eventTypeHandler: Option<nat>, b: Behaviour)
    requires run.raisedBy.None?
    ensures StopsAt(MessagesRun(run, ms, i, eventTypeHandler, b), run.made, b.raising)
    decreases |ms| - i
  {
    if i >= |ms| {
      assert run.made[|run.made|..] == [];
    } else {
      var r1 := MessageRun(run, ms[i], i, eventTypeHandler, b);
      MessageRunStops(run, ms[i], i, eventTypeHandler, b);
      if r1.raisedBy.None? {
        MessagesRunStops(r1, ms, i + 1, eventTypeHandler, b);
        StopsTrans(r1, MessagesRun(r1, ms, i + 1, eventTypeHandler, b), run.made, b.raising);
      }
    }
  }

  lemma {:induction false} ExceptRunStops(run: Run, handlers: seq<nat>, cause: Invocation, b: Behaviour)
    requires run.raisedBy.None?
    ensures StopsAt(ExceptRun(run, handlers, cause, b), run.made, b.raising)
    ensures ExceptRun(run, handlers, cause, b).made[|run.made|..] <= ExceptionCalls(handlers, cause)
    decreases |handlers|
  {
    var r := ExceptRun(run, handlers, cause, b);
    if handlers == [] {
      assert run.made[|run.made|..] == [];
    } else {
      var call := ExceptionHandlerCall(handlers[0], cause);
      var r1 := Invoke(run, call, b);
      InvokeStops(run, call, b);
      assert ExceptionCalls(handlers, cause) == [call] + ExceptionCalls(handlers[1..], cause);
      if r1.raisedBy.None? {
        ExceptRunStops(r1, handlers[1..], cause, b);
        StopsTrans(r1, r, run.made, b.raising);
        assert r.made[|run.made|..] == [call] + r.made[|r1.made|..];
      } else {
        assert r.made[|run.made|..] == [call];
      }
    }
  }

  /**
   * `processEvent` makes its calls until one raises, whatever the handlers
   * change: the `try` block's calls stop at the first that raises; then each
   * exception handler registered at that moment is handed that call's
   * exception, in order, until one raises, and that one escapes (Err).
   * Nothing raised means no exception handler is called.
   */
  lemma ProcessEventStops(t: Tables, base: seq<Invocation>, event: Event, b: Behaviour)
    ensures var tried := TryRun(Run(t, base, None), event, b);
            var (run, res) := ProcessRun(t, base, event, b);
            && StopsAt(tried, base, b.raising)
            && (tried.raisedBy.None? ==> run == tried && res == Ok(()))
            && (tried.raisedBy.Some? ==>
                  && StopsAt(run, tried.made, b.raising)
                  && run.made[|tried.made|..] <= ExceptionCalls(tried.tables.exceptionHandlers, tried.raisedBy.value)
                  && (res.Err? <==> run.raisedBy.Some?)
                  && (res.Err? ==> res.error == run.raisedBy.value))
  {
    var start := Run(t, base, None);
    var afterEvent :=
      if event.eventType in t.eventHandlers then Invoke(start, EventHandlerCall(t.eventHandlers[event.eventType]), b)
      else start;
    if event.eventType in t.eventHandlers {
      InvokeStops(start, EventHandlerCall(t.eventHandlers[event.eventType]), b);
    } else {
      assert base[|base|..] == [];
    }
    if afterEvent.raisedBy.None? {
      var et := Get(afterEvent.tables.eventTypeMessageHandlers, event.eventType);
      MessagesRunStops(afterEvent, event.messages, 0, et, b);
      StopsTrans(afterEvent, MessagesRun(afterEvent, event.messages, 0, et, b), base, b.raising);
    }
    var tried := TryRun(start, event, b);
    if tried.raisedBy.Some? {
      ExceptRunStops(Run(tried.tables, tried.made, None), tried.tables.exceptionHandlers, tried.raisedBy.value, b);
    }
  }

  // ----- the plan, when no handler changes the tables -----

  /** A call to the handler when there is one, none otherwise. */
  function CallIf(handler: Option<nat>, messageIndex: nat): seq<Invocation> {
    if handler.Some? then [MessageHandlerCall(handler.value, messageIndex)] else []
  }

  /** The correlation-id handlers of one message, for its ids in order. */
  function CidCalls(byCid: map<nat, nat>, cids: seq<nat>, messageIndex: nat): seq<Invocation>
    decreases |cids|
  {
    if cids == [] then []
    else CallIf(Get(byCid, cids[0]), messageIndex) + CidCalls(byCid, cids[1..], messageIndex)
  }

  /** The handlers one message reaches: its correlation ids', then the event type's, then its message type's. */
  function MessageCalls(byCid: map<nat, nat>, eventTypeHandler: Option<nat>, byMessageType: map<nat, nat>,
                        m: Message, messageIndex: nat): seq<Invocation>
  {
    CidCalls(byCid, m.correlationIds, messageIndex) + CallIf(eventTypeHandler, messageIndex) +
    CallIf(Get(byMessageType, m.messageType), messageIndex)
  }

  /** A message's calls: its correlation ids' handlers, then the two type handlers. */
  lemma MessageCallsSplit(byCid: map<nat, nat>, eventTypeHandler: Option<nat>, byMessageType: map<nat, nat>,
                          m: Message, messageIndex: nat)
    ensures MessageCalls(byCid, eventTypeHandler, byMessageType, m, messageIndex) ==
            CidCalls(byCid, m.correlationIds, messageIndex) +
            (CallIf(eventTypeHandler, messageIndex) + CallIf(Get(byMessageType, m.messageType), messageIndex))
  {
  }

  /** The handler calls for the messages of an event from message `i` on, message by message. */
  function MessagesCalls(byCid: map<nat, nat>, eventTypeHandler: Option<nat>, byMessageType: map<nat, nat>,
                         ms: seq<Message>, i: nat): seq<Invocation>
    decreases |ms| - i
  {
    if i >= |ms| then []
    else MessageCalls(byCid, eventTypeHandler, byMessageType, ms[i], i) +
         MessagesCalls(byCid, eventTypeHandler, byMessageType, ms, i + 1)
  }

  /** The calls `processEvent` makes for an event when no handler changes the tables. */
  function Plan(t: Tables, event: Event): seq<Invocation> {
    (if event.eventType in t.eventHandlers then [EventHandlerCall(t.eventHandlers[event.eventType])] else []) +
    MessagesCalls(t.cidHandlers, Get(t.eventTypeMessageHandlers, event.eventType), t.messageTypeHandlers,
                  event.messages, 0)
  }

  /** Every call made for messages `lo` to `hi - 1` is a message handler call for one of them. */
  predicate ForMessages(calls: seq<Invocation>, lo: nat, hi: nat) {
    forall k :: 0 <= k < |calls| ==> calls[k].MessageHandlerCall? && lo <= calls[k].message < hi
  }

  lemma {:induction false} CidCallsFor(byCid: map<nat, nat>, cids: seq<nat>, messageIndex: nat)
    ensures forall k :: 0 <= k < |CidCalls(byCid, cids, messageIndex)| ==>
              CidCalls(byCid, cids, messageIndex)[k] == MessageHandlerCall(CidCalls(byCid, cids, messageIndex)[k].handler, messageIndex)
    decreases |cids|
  {
    if cids != [] {
      CidCallsFor(byCid, cids[1..], messageIndex);
      var head: seq<Invocation> := CallIf(Get(byCid, cids[0]), messageIndex);
      var tail: seq<Invocation> := CidCalls(byCid, cids[1..], messageIndex);
      forall k | 0 <= k < |head + tail|
        ensures (head + tail)[k] == MessageHandlerCall((head + tail)[k].handler, messageIndex)
      {
        if k >= |head| {
          assert (head + tail)[k] == tail[k - |head|];
        }
      }
    }
  }

  /** Every call one message makes is a message handler call for that message. */
  lemma MessageCallsFor(byCid: map<nat, nat>, eventTypeHandler: Option<nat>, byMessageType: map<nat, nat>,
                        m: Message, messageIndex: nat)
    ensures ForMessages(MessageCalls(byCid, eventTypeHandler, byMessageType, m, messageIndex), messageIndex, messageIndex + 1)
  {
    var cid := CidCalls(byCid, m.correlationIds, messageIndex);
    var typed := CallIf(eventTypeHandler, messageIndex) + CallIf(Get(byMessageType, m.messageType), messageIndex);
    CidCallsFor(byCid, m.correlationIds, messageIndex);
    MessageCallsSplit(byCid, eventTypeHandler, byMessageType, m, messageIndex);
    var calls := cid + typed;
    forall k | 0 <= k < |calls| ensures calls[k].MessageHandlerCall? && calls[k].message == messageIndex {
      if k < |cid| {
        assert calls[k] == cid[k];
      } else {
        assert calls[k] == typed[k - |cid|];
      }
    }
  }

  /** Message handler calls whose message positions never go back. */
  predicate InMessageOrder(calls: seq<Invocation>)
    requires forall k :: 0 <= k < |calls| ==> calls[k].MessageHandlerCall?
  {
    forall p, q :: 0 <= p < q < |calls| ==> calls[p].message <= calls[q].message
  }

  /** Calls for message `n` placed before calls for later messages keep the order. */
  lemma PrependInOrder(head: seq<Invocation>, tail: seq<Invocation>, n: nat, hi: nat)
    requires n < hi && ForMessages(head, n, n + 1) && ForMessages(tail, n + 1, hi) && InMessageOrder(tail)
    ensures ForMessages(head + tail, n, hi) && InMessageOrder(head + tail)
  {
    var calls := head + tail;
    forall k | 0 <= k < |calls|
      ensures calls[k].MessageHandlerCall? && n <= calls[k].message < hi
    {
      if k >= |head| {
        assert calls[k] == tail[k - |head|];
      }
    }
    forall p, q | 0 <= p < q < |calls|
      ensures calls[p].message <= calls[q].message
    {
      if p >= |head| {
        assert calls[p] == tail[p - |head|] && calls[q] == tail[q - |head|];
      } else if q >= |head| {
        assert calls[p] == head[p] && calls[q] == tail[q - |head|];
      } else {
        assert calls[p] == head[p] && calls[q] == head[q];
      }
    }
  }

  /** The calls for the messages of an event name only those messages, and the later ones come later. */
  lemma {:induction false} MessagesInOrder(byCid: map<nat, nat>, eventTypeHandler: Option<nat>,
                                           byMessageType: map<nat, nat>, ms: seq<Message>, i: nat)
    ensures var calls := MessagesCalls(byCid, eventTypeHandler, byMessageType, ms, i);
            ForMessages(calls, i, |ms|) && InMessageOrder(calls)
    decreases |ms| - i
  {
    if i < |ms| {
      MessageCallsFor(byCid, eventTypeHandler, byMessageType, ms[i], i);
      MessagesInOrder(byCid, eventTypeHandler, byMessageType, ms, i + 1);
      PrependInOrder(MessageCalls(byCid, eventTypeHandler, byMessageType, ms[i], i),
                     MessagesCalls(byCid, eventTypeHandler, byMessageType, ms, i + 1), i, |ms|);
    }
  }

  /** The exception handlers' calls, each handed the call that raised. */
  function ExceptionCalls(handlers: seq<nat>, cause: Invocation): (r: seq<Invocation>)
    ensures |r| == |handlers|
    ensures forall k :: 0 <= k < |r| ==> r[k] == ExceptionHandlerCall(handlers[k], cause)
  {
    seq(|handlers|, k requires 0 <= k < |handlers| => ExceptionHandlerCall(handlers[k], cause))
  }

  /** The state after running `plan` from tables `t` after the calls `base`, when no handler changes the tables. */
  function Static(t: Tables, base: seq<Invocation>, plan: seq<Invocation>, raising: set<Invocation>): Run {
    var (made, raised) := RunUntilRaise(plan, raising);
    Run(t, base + made, if raised && |made| > 0 then Some(made[|made| - 1]) else None)
  }

  /** Running a plan in two parts. */
  lemma StaticSeq(t: Tables, base: seq<Invocation>, first: seq<Invocation>, second: seq<Invocation>,
                  raising: set<Invocation>)
    ensures RunUntilRaise(first, raising).1 ==> Static(t, base, first + second, raising) == Static(t, base, first, raising)
    ensures !RunUntilRaise(first, raising).1 ==>
              Static(t, base, first, raising) == Run(t, base + first, None) &&
              Static(t, base, first + second, raising) == Static(t, base + first, second, raising)
  {
    RunSeq(first, second, raising);
    RunUntilRaiseStops(first, raising);
    if !RunUntilRaise(first, raising).1 {
      var (m2, r2) := RunUntilRaise(second, raising);
      RunUntilRaiseStops(second, raising);
      assert base + (first + m2) == (base + first) + m2;
      if r2 {
        assert (first + m2)[|first + m2| - 1] == m2[|m2| - 1];
      }
    }
  }

  /** No handler changes the tables. */
  predicate NoEdits(b: Behaviour) {
    b.edits == map[]
  }

  lemma InvokeIfStatic(t: Tables, base: seq<Invocation>, h: Option<nat>, i: nat, b: Behaviour)
    requires NoEdits(b)
    ensures InvokeIf(Run(t, base, None), h, i, b) == Static(t, base, CallIf(h, i), b.raising)
  {
    if h.Some? {
      RunOne(MessageHandlerCall(h.value, i), b.raising);
    }
  }

  lemma {:induction false} CidRunStatic(t: Tables, base: seq<Invocation>, cids: seq<nat>, i: nat, b: Behaviour)
    requires NoEdits(b)
    ensures CidRun(Run(t, base, None), cids, i, b) == Static(t, base, CidCalls(t.cidHandlers, cids, i), b.raising)
    decreases |cids|
  {
    if cids != [] {
      var h := Get(t.cidHandlers, cids[0]);
      var first := CallIf(h, i);
      InvokeIfStatic(t, base, h, i, b);
      StaticSeq(t, base, first, CidCalls(t.cidHandlers, cids[1..], i), b.raising);
      if !RunUntilRaise(first, b.raising).1 {
        CidRunStatic(t, base + first, cids[1..], i, b);
      }
    }
  }

  lemma MessageRunStatic(t: Tables, base: seq<Invocation>, m: Message, i: nat, eventTypeHandler: Option<nat>, b: Behaviour)
    requires NoEdits(b)
    ensures MessageRun(Run(t, base, None), m, i, eventTypeHandler, b) ==
            Static(t, base, MessageCalls(t.cidHandlers, eventTypeHandler, t.messageTypeHandlers, m, i), b.raising)
  {
    var cidCalls := CidCalls(t.cidHandlers, m.correlationIds, i);
    var etCalls := CallIf(eventTypeHandler, i);
    var mtCalls := CallIf(Get(t.messageTypeHandlers, m.messageType), i);
    CidRunStatic(t, base, m.correlationIds, i, b);
    MessageCallsSplit(t.cidHandlers, eventTypeHandler, t.messageTypeHandlers, m, i);
    StaticSeq(t, base, cidCalls, etCalls + mtCalls, b.raising);
    if !RunUntilRaise(cidCalls, b.raising).1 {
      InvokeIfStatic(t, base + cidCalls, eventTypeHandler, i, b);
      StaticSeq(t, base + cidCalls, etCalls, mtCalls, b.raising);
      if !RunUntilRaise(etCalls, b.raising).1 {
        InvokeIfStatic(t, base + cidCalls + etCalls, Get(t.messageTypeHandlers, m.messageType), i, b);
      }
    }
  }

  lemma {:induction false} MessagesRunStatic(t: Tables, base: seq<Invocation>, ms: seq<Message>, i: nat,
                                             eventTypeHandler: Option<nat>, b: Behaviour)
    requires NoEdits(b)
    ensures MessagesRun(Run(t, base, None), ms, i, eventTypeHandler, b) ==
            Static(t, base, MessagesCalls(t.cidHandlers, eventTypeHandler, t.messageTypeHandlers, ms, i), b.raising)
    decreases |ms| - i
  {
    if i < |ms| {
      var first := MessageCalls(t.cidHandlers, eventTypeHandler, t.messageTypeHandlers, ms[i], i);
      MessageRunStatic(t, base, ms[i], i, eventTypeHandler, b);
      StaticSeq(t, base, first, MessagesCalls(t.cidHandlers, eventTypeHandler, t.messageTypeHandlers, ms, i + 1), b.raising);
      if !RunUntilRaise(first, b.raising).1 {
        MessagesRunStatic(t, base + first, ms, i + 1, eventTypeHandler, b);
      }
    }
  }

  lemma {:induction false} ExceptRunStatic(t: Tables, base: seq<Invocation>, handlers: seq<nat>, cause: Invocation,
                                           b: Behaviour)
    requires NoEdits(b)
    ensures ExceptRun(Run(t, base, None), handlers, cause, b) == Static(t, base, ExceptionCalls(handlers, cause), b.raising)
    decreases |handlers|
  {
    if handlers != [] {
      var call := ExceptionHandlerCall(handlers[0], cause);
      assert ExceptionCalls(handlers, cause) == [call] + ExceptionCalls(handlers[1..], cause);
      RunOne(call, b.raising);
      StaticSeq(t, base, [call], ExceptionCalls(handlers[1..], cause), b.raising);
      if call !in b.raising {
        ExceptRunStatic(t, base + [call], handlers[1..], cause, b);
      }
    }
  }

  /** With no table changes, the `try` block makes the planned calls until one raises. */
  lemma TryRunStatic(t: Tables, base: seq<Invocation>, event: Event, b: Behaviour)
    requires NoEdits(b)
    ensures TryRun(Run(t, base, None), event, b) == Static(t, base, Plan(t, event), b.raising)
  {
    var head := if event.eventType in t.eventHandlers then [EventHandlerCall(t.eventHandlers[event.eventType])] else [];
    var rest := MessagesCalls(t.cidHandlers, Get(t.eventTypeMessageHandlers, event.eventType), t.messageTypeHandlers,
                              event.messages, 0);
    StaticSeq(t, base, head, rest, b.raising);
    var start := Run(t, base, None);
    if head != [] {
      RunOne(head[0], b.raising);
      assert ApplyAll(t, EditsOf(b, head[0])) == t;
      assert Invoke(start, head[0], b) == Static(t, base, head, b.raising);
    } else {
      assert base + head == base;
    }
    if !RunUntilRaise(head, b.raising).1 {
      MessagesRunStatic(t, base + head, event.messages, 0, Get(t.eventTypeMessageHandlers, event.eventType), b);
    }
  }

  /**
   * When no handler changes the router, `processEvent` is the plan: the
   * planned calls are made until one raises; then every exception handler,
   * in registration order, is handed that exception until one raises, which
   * escapes.  The tables are left as they were.
   */
  lemma ProcessWithoutEdits(t: Tables, base: seq<Invocation>, event: Event, b: Behaviour)
    requires NoEdits(b)
    ensures var (run, res) := ProcessRun(t, base, event, b);
            var (made, raised) := RunUntilRaise(Plan(t, event), b.raising);
            && run.tables == t
            && (!raised ==> run.made == base + made && res == Ok(()))
            && (raised ==>
                  var (handled, escaped) := RunUntilRaise(ExceptionCalls(t.exceptionHandlers, made[|made| - 1]), b.raising);
                  run.made == base + made + handled && (res.Err? <==> escaped) &&
                  (escaped ==> res.error == handled[|handled| - 1]))
  {
    TryRunStatic(t, base, event, b);
    RunUntilRaiseStops(Plan(t, event), b.raising);
    var tried := TryRun(Run(t, base, None), event, b);
    if tried.raisedBy.Some? {
      ExceptRunStatic(t, tried.made, t.exceptionHandlers, tried.raisedBy.value, b);
      RunUntilRaiseStops(ExceptionCalls(t.exceptionHandlers, tried.raisedBy.value), b.raising);
    }
  }

  // ----- handlers that change the router -----

  /**
   * A handler that removes its own correlation id's entry is not called for
   * the later messages of the same event that carry that id, although the
   * table held it when the event arrived.
   */
  lemma RemovalTakesEffectAtOnce()
    ensures var t := Tables(map[], map[], map[], map[5 := 7], []);
            var event := Event(1, [Message([5], 0), Message([5], 0)]);
            var b := Behaviour({}, map[MessageHandlerCall(7, 0) := [RemoveCidHandler(5)]]);
            && ProcessRun(t, [], event, b).0.made == [MessageHandlerCall(7, 0)]
            && ProcessRun(t, [], event, b).0.tables.cidHandlers == map[]
            && Plan(t, event) == [MessageHandlerCall(7, 0), MessageHandlerCall(7, 1)]
  {
    var t := Tables(map[], map[], map[], map[5 := 7], []);
    var event := Event(1, [Message([5], 0), Message([5], 0)]);
    var b := Behaviour({}, map[MessageHandlerCall(7, 0) := [RemoveCidHandler(5)]]);
    var call := MessageHandlerCall(7, 0);
    var start := Run(t, [], None);
    assert ApplyAll(t, [RemoveCidHandler(5)]) == t.(cidHandlers := map[]) by {
      assert [RemoveCidHandler(5)][..0] == [];
    }
    var afterFirst := Run(t.(cidHandlers := map[]), [call], None);
    assert CidRun(start, [5], 0, b) == afterFirst by {
      assert [5][1..] == [];
    }
    assert MessageRun(start, event.messages[0], 0, None, b) == afterFirst;
    assert MessageRun(afterFirst, event.messages[1], 1, None, b) == afterFirst by {
      assert [5][1..] == [];
    }
    assert MessagesRun(afterFirst, event.messages, 2, None, b) == afterFirst;
    assert CidCalls(t.cidHandlers, [5], 1) == [MessageHandlerCall(7, 1)] by {
      assert [5][1..] == [];
    }
  }

  /**
   * The event type's message handler is looked up after the event handler
   * has run: one the event handler registers already receives the messages
   * of the event being processed.
   */
  lemma EventHandlerRegistrationTakesEffect()
    ensures var t := Tables(map[1 := 3], map[], map[], map[], []);
            var event := Event(1, [Message([], 0)]);
            var b := Behaviour({}, map[EventHandlerCall(3) := [SetEventTypeMessageHandler(1, 4)]]);
            && ProcessRun(t, [], event, b).0.made == [EventHandlerCall(3), MessageHandlerCall(4, 0)]
            && Plan(t, event) == [EventHandlerCall(3)]
  {
    var t := Tables(map[1 := 3], map[], map[], map[], []);
    var event := Event(1, [Message([], 0)]);
    var b := Behaviour({}, map[EventHandlerCall(3) := [SetEventTypeMessageHandler(1, 4)]]);
    var t1 := t.(eventTypeMessageHandlers := map[1 := 4]);
    assert ApplyAll(t, [SetEventTypeMessageHandler(1, 4)]) == t1 by {
      assert [SetEventTypeMessageHandler(1, 4)][..0] == [];
    }
    var afterEvent := Run(t1, [EventHandlerCall(3)], None);
    var afterMessage := Run(t1, [EventHandlerCall(3), MessageHandlerCall(4, 0)], None);
    assert MessageRun(afterEvent, event.messages[0], 0, Some(4), b) == afterMessage;
    assert MessagesRun(afterMessage, event.messages, 1, Some(4), b) == afterMessage;
  }

  class Router {
    var eventHandlersByEventType: map<int, nat>
    var messageHandlersByEventType: map<int, nat>
    var messageHandlersByMessageType: map<nat, nat>
    var messageHandlersByCorrelationId: map<nat, nat>
    var exceptionHandlers: seq<nat>
    /** The handler calls made so far, in order. */
    var invoked: seq<Invocation>

    constructor()
      ensures eventHandlersByEventType == map[] && messageHandlersByEventType == map[]
      ensures messageHandlersByMessageType == map[] && messageHandlersByCorrelationId == map[]
      ensures exceptionHandlers == [] && invoked == []
    {
      eventHandlersByEventType := map[];
      messageHandlersByEventType := map[];
      messageHandlersByMessageType := map[];
      messageHandlersByCorrelationId := map[];
      exceptionHandlers := [];
      invoked := [];
    }

    function Snapshot(): Tables
      reads this
    {
      Tables(eventHandlersByEventType, messageHandlersByEventType, messageHandlersByMessageType,
             messageHandlersByCorrelationId, exceptionHandlers)
    }

    /** The router as a run: its tables, the calls made so far, and the call that raised, if one has. */
    function Current(raisedBy: Option<Invocation>): Run
      reads this
    {
      Run(Snapshot(), invoked, raisedBy)
    }

    /**
     * `processEvent`: the `try` block, then, when a handler raised, the
     * `except` block; Err is the exception handler call whose exception
     * escapes.
     */
    method ProcessEvent(event: Event, b: Behaviour) returns (r: Result<(), Invocation>)
      modifies this
      ensures var (run, res) := ProcessRun(old(Snapshot()), old(invoked), event, b);
              Snapshot() == run.tables && invoked == run.made && r == res
    {
      var raisedBy := DispatchEvent(event, b);
      r := Ok(());
      if raisedBy.Some? {
        r := HandleException(raisedBy.value, b);
      }
    }

    /** The `try` block of `processEvent`: the calls it makes, and the call that raised, if one did. */
    method DispatchEvent(event: Event, b: Behaviour) returns (raisedBy: Option<Invocation>)
      modifies this
      ensures Current(raisedBy) == TryRun(old(Current(None)), event, b)
    {
      raisedBy := None;
      var eventHandler := Get(eventHandlersByEventType, event.eventType);
      if eventHandler.Some? {
        var call := EventHandlerCall(eventHandler.value);
        var raised := Call(call, b);
        if raised {
          return Some(call);
        }
      }
      var eventTypeMessageHandler := Get(messageHandlersByEventType, event.eventType);
      raisedBy := DispatchMessages(event.messages, eventTypeMessageHandler, b);
    }

    /** The messages of an event, in order, until a handler raises. */
    method DispatchMessages(ms: seq<Message>, eventTypeMessageHandler: Option<nat>, b: Behaviour)
      returns (raisedBy: Option<Invocation>)
      modifies this
      ensures Current(raisedBy) == MessagesRun(old(Current(None)), ms, 0, eventTypeMessageHandler, b)
    {
      raisedBy := None;
      var i := 0;
      while i < |ms| && raisedBy.None?
        invariant 0 <= i <= |ms|
        invariant MessagesRun(Current(raisedBy), ms, i, eventTypeMessageHandler, b)
               == MessagesRun(old(Current(None)), ms, 0, eventTypeMessageHandler, b)
      {
        raisedBy := DispatchMessage(ms[i], i, eventTypeMessageHandler, b);
        i := i + 1;
      }
    }

    /** The calls `processEvent` makes for message `i`: its correlation ids' handlers, the event type's, the message type's. */
    method DispatchMessage(m: Message, i: nat, eventTypeMessageHandler: Option<nat>, b: Behaviour)
      returns (raisedBy: Option<Invocation>)
      modifies this
      ensures Current(raisedBy) == MessageRun(old(Current(None)), m, i, eventTypeMessageHandler, b)
    {
      raisedBy := DispatchCorrelationIds(m.correlationIds, i, b);
      if raisedBy.None? {
        raisedBy := DispatchOptional(eventTypeMessageHandler, i, b);
        if raisedBy.None? {
          var messageTypeMessageHandler := Get(messageHandlersByMessageType, m.messageType);
          raisedBy := DispatchOptional(messageTypeMessageHandler, i, b);
        }
      }
    }

    /** The correlation-id handlers of message `i`, each looked up when its id comes, until one raises. */
    method DispatchCorrelationIds(cids: seq<nat>, i: nat, b: Behaviour) returns (raisedBy: Option<Invocation>)
      modifies this
      ensures Current(raisedBy) == CidRun(old(Current(None)), cids, i, b)
    {
      raisedBy := None;
      var j := 0;
      while j < |cids| && raisedBy.None?
        invariant 0 <= j <= |cids|
        invariant CidRun(Current(raisedBy), cids[j..], i, b) == CidRun(old(Current(None)), cids, i, b)
      {
        assert cids[j..][1..] == cids[j + 1..];
        var cidMessageHandler := Get(messageHandlersByCorrelationId, cids[j]);
        raisedBy := DispatchOptional(cidMessageHandler, i, b);
        j := j + 1;
      }
    }

    /** One lookup's handler, when there is one, called for message `i`. */
    method DispatchOptional(handler: Option<nat>, i: nat, b: Behaviour) returns (raisedBy: Option<Invocation>)
      modifies this
      ensures Current(raisedBy) == InvokeIf(old(Current(None)), handler, i, b)
    {
      raisedBy := None;
      if handler.Some? {
        var call := MessageHandlerCall(handler.value, i);
        var raised := Call(call, b);
        if raised {
          raisedBy := Some(call);
        }
      }
    }

    /** The `except` block of `processEvent`: the exception handlers registered now, in order, until one raises. */
    method HandleException(cause: Invocation, b: Behaviour) returns (r: Result<(), Invocation>)
      modifies this
      ensures var run := ExceptRun(old(Current(None)), old(exceptionHandlers), cause, b);
              Current(run.raisedBy) == run && r == if run.raisedBy.Some? then Err(run.raisedBy.value) else Ok(())
    {
      var handlers := exceptionHandlers;
      var raisedBy: Option<Invocation> := None;
      var k := 0;
      while k < |handlers| && raisedBy.None?
        invariant 0 <= k <= |handlers| && handlers == old(exceptionHandlers)
        invariant ExceptRun(Current(raisedBy), handlers[k..], cause, b) == ExceptRun(old(Current(None)), handlers, cause, b)
      {
        assert handlers[k..][1..] == handlers[k + 1..];
        var call := ExceptionHandlerCall(handlers[k], cause);
        var raised := Call(call, b);
        if raised {
          raisedBy := Some(call);
        }
        k := k + 1;
      }
      r := if raisedBy.Some? then Err(raisedBy.value) else Ok(());
    }

    /** A handler call: recorded, its changes made through the router's methods, and whether it raised. */
    method Call(call: Invocation, b: Behaviour) returns (raised: bool)
      modifies this
      ensures Current(if raised then Some(call) else None) == Invoke(old(Current(None)), call, b)
    {
      invoked := invoked + [call];
      var edits := EditsOf(b, call);
      var j := 0;
      while j < |edits|
        invariant 0 <= j <= |edits|
        invariant Snapshot() == ApplyAll(old(Snapshot()), edits[..j]) && invoked == old(invoked) + [call]
      {
        assert edits[..j + 1][..j] == edits[..j];
        ApplyEdit(edits[j]);
        j := j + 1;
      }
      assert edits[..j] == edits;
      raised := call in b.raising;
    }

    /** One change a running handler makes, through the router method that makes it. */
    method ApplyEdit(e: Edit)
      modifies this
      ensures Snapshot() == Apply(old(Snapshot()), e) && invoked == old(invoked)
    {
      match e
      case SetEventHandler(eventType, h) => AddEventHandlerByEventType(eventType, h);
      case SetEventTypeMessageHandler(eventType, h) => AddMessageHandlerByEventType(eventType, h);
      case SetMessageTypeHandler(messageType, h) => AddMessageHandlerByMessageType(messageType, h);
      case SetCidHandler(cid, h) => AddMessageHandlerByCorrelationId(cid, h);
      case RemoveCidHandler(cid) => RemoveMessageHandlerByCorrelationId(cid);
      case AppendExceptionHandler(h) => AddExceptionHandler(h);
    }

    method AddEventHandlerByEventType(eventType: int, eventHandler: nat)
      modifies this
      ensures eventHandlersByEventType == old(eventHandlersByEventType)[eventType := eventHandler]
      ensures messageHandlersByEventType == old(messageHandlersByEventType)
      ensures messageHandlersByMessageType == old(messageHandlersByMessageType)
      ensures messageHandlersByCorrelationId == old(messageHandlersByCorrelationId)
      ensures exceptionHandlers == old(exceptionHandlers) && invoked == old(invoked)
    {
      eventHandlersByEventType := eventHandlersByEventType[eventType := eventHandler];
    }

    method AddMessageHandlerByEventType(eventType: int, messageHandler: nat)
      modifies this
      ensures messageHandlersByEventType == old(messageHandlersByEventType)[eventType := messageHandler]
      ensures eventHandlersByEventType == old(eventHandlersByEventType)
      ensures messageHandlersByMessageType == old(messageHandlersByMessageType)
      ensures messageHandlersByCorrelationId == old(messageHandlersByCorrelationId)
      ensures exceptionHandlers == old(exceptionHandlers) && invoked == old(invoked)
    {
      messageHandlersByEventType := messageHandlersByEventType[eventType := messageHandler];
    }

    method AddMessageHandlerByMessageType(messageType: nat, messageHandler: nat)
      modifies this
      ensures messageHandlersByMessageType == old(messageHandlersByMessageType)[messageType := messageHandler]
      ensures eventHandlersByEventType == old(eventHandlersByEventType)
      ensures messageHandlersByEventType == old(messageHandlersByEventType)
      ensures messageHandlersByCorrelationId == old(messageHandlersByCorrelationId)
      ensures exceptionHandlers == old(exceptionHandlers) && invoked == old(invoked)
    {
      messageHandlersByMessageType := messageHandlersByMessageType[messageType := messageHandler];
    }

    method AddMessageHandlerByCorrelationId(correlationId: nat, messageHandler: nat)
      modifies this
      ensures messageHandlersByCorrelationId == old(messageHandlersByCorrelationId)[correlationId := messageHandler]
      ensures eventHandlersByEventType == old(eventHandlersByEventType)
      ensures messageHandlersByEventType == old(messageHandlersByEventType)
      ensures messageHandlersByMessageType == old(messageHandlersByMessageType)
      ensures exceptionHandlers == old(exceptionHandlers) && invoked == old(invoked)
    {
      messageHandlersByCorrelationId := messageHandlersByCorrelationId[correlationId := messageHandler];
    }

    /** `addExceptionHandler`: appended; exception handlers are never removed. */
    method AddExceptionHandler(exceptionHandler: nat)
      modifies this
      ensures exceptionHandlers == old(exceptionHandlers) + [exceptionHandler]
      ensures eventHandlersByEventType == old(eventHandlersByEventType)
      ensures messageHandlersByEventType == old(messageHandlersByEventType)
      ensures messageHandlersByMessageType == old(messageHandlersByMessageType)
      ensures messageHandlersByCorrelationId == old(messageHandlersByCorrelationId)
      ensures invoked == old(invoked)
    {
      exceptionHandlers := exceptionHandlers + [exceptionHandler];
    }

    /** `removeMessageHandlerByCorrelationId`: the key is dropped; an absent key changes nothing. */
    method RemoveMessageHandlerByCorrelationId(correlationId: nat)
      modifies this
      ensures messageHandlersByCorrelationId == old(messageHandlersByCorrelationId) - {correlationId}
      ensures correlationId !in old(messageHandlersByCorrelationId) ==>
                messageHandlersByCorrelationId == old(messageHandlersByCorrelationId)
      ensures eventHandlersByEventType == old(eventHandlersByEventType)
      ensures messageHandlersByEventType == old(messageHandlersByEventType)
      ensures messageHandlersByMessageType == old(messageHandlersByMessageType)
      ensures exceptionHandlers == old(exceptionHandlers) && invoked == old(invoked)
    {
      messageHandlersByCorrelationId := messageHandlersByCorrelationId - {correlationId};
    }
  }
}
