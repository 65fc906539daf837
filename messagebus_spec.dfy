/** `MessageBus.handle` as a function of the queue and the world. Running out of fuel
    stands for a loop that would go on for ever. Three choices are parameters, because
    the code as written and its evident intent differ on each:
    whether the loop guard is the `Queue.not_empty` condition object (always truthy),
    whether draining clears `uow.events`, and whether the inner drain loop rebinds the
    event the later handlers receive. */
module MessageBusSpec {
  import opened Errors
  import opened Messages
  import opened UnitsOfWork
  import opened Handlers
  import opened Registries
  import UserHandlers

  datatype Semantics = Semantics(conditionGuard: bool, clearOnDrain: bool, rebind: bool)

  /** The bus as written except for its loop guard, which is read as "queue not empty". */
  const Modelled := Semantics(false, false, true)
  /** The bus exactly as written. */
  const AsWritten := Semantics(true, false, true)
  /** The evident intent: stop on an empty queue, clear drained events, keep the event. */
  const Intended := Semantics(false, true, false)

  type EventTable = seq<(EventType, seq<Instance<UnitOfWork>>)>
  type CommandTable = seq<(CommandType, Instance<UnitOfWork>)>

  /** What `await handler(message)` does to the world and what it answers, for each
      handler class; the bus is stated over any such table. */
  type Effects = (HandlerClass, Message, World) -> Outcome<Reply>

  /** The handlers of this model. Every handler keeps a world valid, and the bus only
      starts from valid worlds, so the answer given elsewhere never arises. */
  ghost function HandlerEffects(pw: UserHandlers.Passwords): Effects
  {
    (c: HandlerClass, m: Message, w: World) =>
      if WorldValid(w) then Effect(c, m, w, pw) else Outcome(w, Err(AttributeError))
  }

  /** `eff` answers as the handlers do on every valid world. */
  ghost predicate Implements(eff: Effects, pw: UserHandlers.Passwords)
  {
    forall c: HandlerClass, m: Message, w: World {:trigger Effect(c, m, w, pw)} ::
      WorldValid(w) ==> eff(c, m, w) == Effect(c, m, w, pw)
  }

  lemma HandlerEffectsImplement(pw: UserHandlers.Passwords)
    ensures Implements(HandlerEffects(pw), pw)
  {
  }

  /** A handler never takes an event off `uow.events`; at most one goes on. */
  ghost predicate EventsGrow(eff: Effects)
  {
    forall c: HandlerClass, m: Message, w: World :: w.events <= eff(c, m, w).world.events
  }

  /** A handler keeps the world valid. */
  ghost predicate KeepsValid(eff: Effects)
  {
    forall c: HandlerClass, m: Message, w: World :: WorldValid(w) ==> WorldValid(eff(c, m, w).world)
  }

  lemma HandlerEffectsBehave(pw: UserHandlers.Passwords)
    ensures EventsGrow(HandlerEffects(pw)) && KeepsValid(HandlerEffects(pw))
  {
    var eff := HandlerEffects(pw);
    forall c: HandlerClass, m: Message, w: World ensures w.events <= eff(c, m, w).world.events {
      if WorldValid(w) {
        var o := Effect(c, m, w, pw);
        assert o.world.events[..|w.events|] == w.events;
      }
    }
  }

  /** One `await handler(message)`. */
  datatype Call = Call(handler: HandlerClass, arg: Message)

  /** Where handling one message leaves the bus; `error` is the exception it raised. */
  datatype StepResult = StepResult(error: Option<Error>, queue: seq<Message>, world: World, calls: seq<Call>)

  datatype Status = Done | Raised(error: Error) | OutOfFuel | Blocked

  /** The end of a `handle` call: how it ended, the queue and the world it left, the
      messages it took off the queue and the handler calls it made, in order. */
  datatype RunResult = RunResult(status: Status, queue: seq<Message>, world: World,
                                 dequeued: seq<Message>, calls: seq<Call>)

  function Evts(es: seq<Event>): (ms: seq<Message>)
    ensures |ms| == |es| && forall i :: 0 <= i < |es| ==> ms[i] == Evt(es[i])
  {
    seq(|es|, i requires 0 <= i < |es| => Evt(es[i]))
  }

  lemma EvtsSnoc(es: seq<Event>, i: nat)
    requires i < |es|
    ensures Evts(es[..i + 1]) == Evts(es[..i]) + [Evt(es[i])]
  {
    assert Evts(es[..i + 1])[i] == Evt(es[i]);
  }

  /** The world after `for event in uow.events: queue.put_nowait(event)`. */
  function Drained(s: Semantics, w: World): World
  {
    if s.clearOnDrain then w.(events := []) else w
  }

  /** The inner loop of `_handle_event`: each handler in list order, with a drain after
      each one; the first exception ends the loop. */
  ghost function EventLoop(s: Semantics, eff: Effects, hs: seq<Instance<UnitOfWork>>, arg: Message,
                           q: seq<Message>, w: World): (r: StepResult)
    ensures q <= r.queue
    ensures |r.calls| <= |hs| && forall i :: 0 <= i < |r.calls| ==> r.calls[i].handler == hs[i].cls
    ensures r.error.None? ==> |r.calls| == |hs|
    decreases |hs|
  {
    if hs == [] then StepResult(None, q, w, [])
    else
      var o := eff(hs[0].cls, arg, w);
      if o.result.Err? then StepResult(Some(o.result.error), q, o.world, [Call(hs[0].cls, arg)])
      else
        var drained := o.world.events;
        var next := if s.rebind && drained != [] then Evt(drained[|drained| - 1]) else arg;
        var rest := EventLoop(s, eff, hs[1..], next, q + Evts(drained), Drained(s, o.world));
        assert forall i :: 1 <= i < |hs| ==> hs[i] == hs[1..][i - 1];
        rest.(calls := [Call(hs[0].cls, arg)] + rest.calls)
  }

  /** One trip round the `handle` loop with `m` just taken off the queue `q`. */
  ghost function Step(s: Semantics, eff: Effects, m: Message, q: seq<Message>, w: World,
                      events: EventTable, commands: CommandTable): (r: StepResult)
    ensures q <= r.queue
    ensures m.Other? ==> r == StepResult(Some(MessageBusMessageError), q, w, [])
  {
    match m
    case Evt(e) =>
      (match Lookup(events, EventTypeOf(e))
       case Err(_) => StepResult(Some(KeyError), q, w, [])
       case Ok(hs) => EventLoop(s, eff, hs, m, q, w))
    case Cmd(c) =>
      (match Lookup(commands, CommandTypeOf(c))
       case Err(_) => StepResult(Some(KeyError), q, w, [])
       case Ok(h) =>
         var o := eff(h.cls, m, w);
         if o.result.Err? then StepResult(Some(o.result.error), q, o.world, [Call(h.cls, m)])
         else StepResult(None, q + Evts(o.world.events), Drained(s, o.world), [Call(h.cls, m)]))
    case Other(_) => StepResult(Some(MessageBusMessageError), q, w, [])
  }

  /** The `while` loop of `handle` on the queue `q`, with at most `fuel` trips. */
  ghost function Run(s: Semantics, eff: Effects, fuel: nat, q: seq<Message>, w: World,
                     events: EventTable, commands: CommandTable): (r: RunResult)
    ensures r.status == Done ==> r.queue == [] && !s.conditionGuard
    ensures r.status == Blocked ==> r.queue == [] && s.conditionGuard
    decreases fuel
  {
    if q == [] then RunResult(if s.conditionGuard then Blocked else Done, q, w, [], [])
    else if fuel == 0 then RunResult(OutOfFuel, q, w, [], [])
    else
      var st := Step(s, eff, q[0], q[1..], w, events, commands);
      if st.error.Some? then
        RunResult(Raised(st.error.value), st.queue, st.world, [q[0]], st.calls)
      else
        var rest := Run(s, eff, fuel - 1, st.queue, st.world, events, commands);
        rest.(dequeued := [q[0]] + rest.dequeued, calls := st.calls + rest.calls)
  }

  /** The sequence step of the FIFO property: the head goes first, and what followed it stays
      ahead of anything the trip appended. */
  lemma FifoTrip<T>(q: seq<T>, a: seq<T>, d: seq<T>, t: seq<T>)
    requires q != [] && q[1..] <= a && a <= d + t
    ensures q <= ([q[0]] + d) + t
  {
    PrefixTrans(q[1..], a, d + t);
    PrefixAfterHead(q, d, t);
  }

  lemma PrefixAfterHead<T>(q: seq<T>, d: seq<T>, t: seq<T>)
    requires q != [] && q[1..] <= d + t
    ensures q <= ([q[0]] + d) + t
  {
    assert ([q[0]] + d) + t == [q[0]] + (d + t);
    PrefixCons(q[0], q[1..], d + t);
    assert q == [q[0]] + q[1..];
  }

  lemma PrefixTrans<T>(a: seq<T>, b: seq<T>, c: seq<T>)
    requires a <= b && b <= c
    ensures a <= c
  {
    assert c[..|a|] == c[..|b|][..|a|];
  }

  lemma PrefixCons<T>(x: T, a: seq<T>, b: seq<T>)
    requires a <= b
    ensures [x] + a <= [x] + b
  {
    assert ([x] + b)[..|[x] + a|] == [x] + b[..|a|];
  }

  /** One trip of the loop, all of the result: an error stops it there, otherwise the
      trip's message and calls go in front of the rest of the run. */
  lemma RunTrip(s: Semantics, eff: Effects, fuel: nat, q: seq<Message>, w: World,
                events: EventTable, commands: CommandTable)
    requires q != [] && fuel > 0
    ensures var st := Step(s, eff, q[0], q[1..], w, events, commands);
            Run(s, eff, fuel, q, w, events, commands) ==
              if st.error.Some? then RunResult(Raised(st.error.value), st.queue, st.world, [q[0]], st.calls)
              else var rest := Run(s, eff, fuel - 1, st.queue, st.world, events, commands);
                   rest.(dequeued := [q[0]] + rest.dequeued, calls := st.calls + rest.calls)
  {
  }

  /** One handler of the event loop: a raised error ends it, otherwise the remaining
      handlers run on what the drain left. */
  lemma EventLoopOneHandler(s: Semantics, eff: Effects, hs: seq<Instance<UnitOfWork>>, i: nat, arg: Message,
                            q: seq<Message>, w: World)
    requires i < |hs|
    ensures var o := eff(hs[i].cls, arg, w);
            var r := EventLoop(s, eff, hs[i..], arg, q, w);
            (o.result.Err? ==> r.error == Some(o.result.error) && r.queue == q && r.world == o.world) &&
            (o.result.Ok? ==>
               var next := if s.rebind && o.world.events != [] then Evt(o.world.events[|o.world.events| - 1]) else arg;
               var rest := EventLoop(s, eff, hs[i + 1..], next, q + Evts(o.world.events), Drained(s, o.world));
               r.error == rest.error && r.queue == rest.queue && r.world == rest.world)
  {
    assert hs[i..][0] == hs[i] && hs[i..][1..] == hs[i + 1..];
  }

  /** A handler that fails leaves the world as it found it. */
  ghost predicate ErrorsUndo(eff: Effects)
  {
    forall c: HandlerClass, m: Message, w: World :: eff(c, m, w).result.Err? ==> eff(c, m, w).world == w
  }

  lemma HandlerEffectsUndo(pw: UserHandlers.Passwords)
    ensures ErrorsUndo(HandlerEffects(pw))
  {
  }

  /** When every handler keeps the world valid, so does the whole loop. */
  lemma {:induction false} RunKeepsValid(s: Semantics, eff: Effects, fuel: nat, q: seq<Message>, w: World,
                                         events: EventTable, commands: CommandTable)
    requires KeepsValid(eff) && WorldValid(w)
    ensures WorldValid(Run(s, eff, fuel, q, w, events, commands).world)
    decreases fuel
  {
    if q != [] && fuel > 0 {
      var st := Step(s, eff, q[0], q[1..], w, events, commands);
      StepKeepsValid(s, eff, q[0], q[1..], w, events, commands);
      if st.error.None? {
        RunKeepsValid(s, eff, fuel - 1, st.queue, st.world, events, commands);
      }
    }
  }

  lemma StepKeepsValid(s: Semantics, eff: Effects, m: Message, q: seq<Message>, w: World,
                       events: EventTable, commands: CommandTable)
    requires KeepsValid(eff) && WorldValid(w)
    ensures WorldValid(Step(s, eff, m, q, w, events, commands).world)
  {
    if m.Evt? {
      match Lookup(events, EventTypeOf(m.event))
      case Err(_) =>
      case Ok(hs) => EventLoopKeepsValid(s, eff, hs, m, q, w);
    }
  }

  lemma {:induction false} EventLoopKeepsValid(s: Semantics, eff: Effects, hs: seq<Instance<UnitOfWork>>, arg: Message,
                                               q: seq<Message>, w: World)
    requires KeepsValid(eff) && WorldValid(w)
    ensures WorldValid(EventLoop(s, eff, hs, arg, q, w).world)
    decreases |hs|
  {
    if hs != [] {
      var o := eff(hs[0].cls, arg, w);
      if o.result.Ok? {
        var drained := o.world.events;
        var next := if s.rebind && drained != [] then Evt(drained[|drained| - 1]) else arg;
        EventLoopKeepsValid(s, eff, hs[1..], next, q + Evts(drained), Drained(s, o.world));
      }
    }
  }
}
