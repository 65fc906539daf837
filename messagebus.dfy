/** `MessageBus`: a FIFO queue of messages and the registries it dispatches them through.
    Each method is proved to do what the corresponding part of the bus function does. */
module MessageBuses {
  import opened Errors
  import opened Messages
  import opened UnitsOfWork
  import opened Handlers
  import opened Registries
  import opened MessageBusSpec
  import UserHandlers

  class MessageBus {
    const uow: UnitOfWork
    const semantics: Semantics
    const eventHandlers: EventTable
    const commandHandlers: CommandTable
    /** The hashing the user handlers call. */
    const passwords: UserHandlers.Passwords
    /** What each handler does, as the bus function sees it. */
    ghost const effects: Effects
    /** The `queue.Queue` built in `__init__`. */
    var queue: seq<Message>

    /** Every registered handler was built around this bus's unit of work. */
    ghost predicate Valid()
      reads this, uow.Repr()
    {
      && uow.Valid()
      && Implements(effects, passwords)
      && (forall i :: 0 <= i < |commandHandlers| ==> BoundTo(commandHandlers[i].1, uow))
      && (forall i, j :: 0 <= i < |eventHandlers| && 0 <= j < |eventHandlers[i].1| ==>
                           BoundTo(eventHandlers[i].1[j], uow))
    }

    constructor (uow: UnitOfWork, semantics: Semantics, eventHandlers: EventTable, commandHandlers: CommandTable,
                 passwords: UserHandlers.Passwords)
      requires uow.Valid()
      requires forall i :: 0 <= i < |commandHandlers| ==> BoundTo(commandHandlers[i].1, uow)
      requires forall i, j :: 0 <= i < |eventHandlers| && 0 <= j < |eventHandlers[i].1| ==>
                                BoundTo(eventHandlers[i].1[j], uow)
      ensures Valid() && queue == []
      ensures this.uow == uow && this.semantics == semantics
      ensures this.eventHandlers == eventHandlers && this.commandHandlers == commandHandlers
      ensures this.passwords == passwords && effects == HandlerEffects(passwords)
    {
      HandlerEffectsImplement(passwords);
      this.passwords := passwords;
      effects := HandlerEffects(passwords);
      this.uow := uow;
      this.semantics := semantics;
      this.eventHandlers := eventHandlers;
      this.commandHandlers := commandHandlers;
      queue := [];
    }

    /** `handle(message)`: puts the message on the queue and runs the loop, for at most
        `fuel` trips; the status, the queue left and the world left are those of `Run`. */
    method Handle(m: Message, fuel: nat) returns (status: Status)
      requires Valid()
      modifies this, uow, uow.groups, uow.users
      ensures Valid()
      ensures var r := Run(semantics, effects, fuel, old(queue) + [m], old(uow.Abs()),
                           eventHandlers, commandHandlers);
              status == r.status && queue == r.queue && uow.Abs() == r.world
    {
      queue := queue + [m];
      ghost var target := Run(semantics, effects, fuel, queue, uow.Abs(), eventHandlers, commandHandlers);
      var n := fuel;
      while queue != [] && n > 0
        invariant Valid()
        invariant var r := Run(semantics, effects, n, queue, uow.Abs(), eventHandlers, commandHandlers);
                  r.status == target.status && r.queue == target.queue && r.world == target.world
        decreases n
      {
        var error := Trip(n);
        if error.Some? {
          return Raised(error.value);
        }
        n := n - 1;
      }
      if queue == [] {
        status := if semantics.conditionGuard then Blocked else Done;
      } else {
        status := OutOfFuel;
      }
    }

    /** One trip round the loop: the message at the head of the queue is taken off and
        handled. A raised error is where `Run` ends; otherwise `Run` goes on from the
        queue and the world the trip left. */
    method Trip(n: nat) returns (error: Option<Error>)
      requires Valid() && queue != [] && n > 0
      modifies this, uow, uow.groups, uow.users
      ensures Valid()
      ensures var r := Run(semantics, effects, n, old(queue), old(uow.Abs()), eventHandlers, commandHandlers);
              var rest := Run(semantics, effects, n - 1, queue, uow.Abs(), eventHandlers, commandHandlers);
              (error.Some? ==> r.status == Raised(error.value) && r.queue == queue && r.world == uow.Abs()) &&
              (error.None? ==> r.status == rest.status && r.queue == rest.queue && r.world == rest.world)
    {
      ghost var q, w := queue, uow.Abs();
      RunTrip(semantics, effects, n, q, w, eventHandlers, commandHandlers);
      var msg := queue[0];
      queue := queue[1..];
      error := HandleMessage(msg);
    }

    /** One trip of the loop with `msg` just taken off the queue. */
    method HandleMessage(msg: Message) returns (error: Option<Error>)
      requires Valid()
      modifies this, uow, uow.groups, uow.users
      ensures Valid()
      ensures var st := Step(semantics, effects, msg, old(queue), old(uow.Abs()),
                             eventHandlers, commandHandlers);
              error == st.error && queue == st.queue && uow.Abs() == st.world
    {
      match msg
      case Evt(e) => error := HandleEvent(e);
      case Cmd(c) => error := HandleCommand(c);
      case Other(_) => error := Some(MessageBusMessageError);
    }

    /** `_handle_event`: every handler registered for the event's type, in list order,
        with the queue drained after each; the first exception ends it. */
    method HandleEvent(e: Event) returns (error: Option<Error>)
      requires Valid()
      modifies this, uow, uow.groups, uow.users
      ensures Valid()
      ensures var st := Step(semantics, effects, Evt(e), old(queue), old(uow.Abs()),
                             eventHandlers, commandHandlers);
              error == st.error && queue == st.queue && uow.Abs() == st.world
    {
      match Lookup(eventHandlers, EventTypeOf(e))
      case Err(_) => error := Some(KeyError);
      case Ok(hs) =>
        assert forall j :: 0 <= j < |hs| ==> BoundTo(hs[j], uow);
        error := RunHandlers(hs, Evt(e));
    }

    /** The loop of `_handle_event`: each handler in turn, each followed by a drain,
        stopping at the first handler that raises. */
    method RunHandlers(hs: seq<Instance<UnitOfWork>>, first: Message) returns (error: Option<Error>)
      requires Valid() && forall j :: 0 <= j < |hs| ==> BoundTo(hs[j], uow)
      modifies this, uow, uow.groups, uow.users
      ensures Valid()
      ensures var r := EventLoop(semantics, effects, hs, first, old(queue), old(uow.Abs()));
              error == r.error && queue == r.queue && uow.Abs() == r.world
    {
      ghost var target := EventLoop(semantics, effects, hs, first, queue, uow.Abs());
      var arg := first;
      var i := 0;
      while i < |hs|
        invariant 0 <= i <= |hs| && Valid()
        invariant forall j :: 0 <= j < |hs| ==> BoundTo(hs[j], uow)
        invariant var r := EventLoop(semantics, effects, hs[i..], arg, queue, uow.Abs());
                  r.error == target.error && r.queue == target.queue && r.world == target.world
        decreases |hs| - i
      {
        EventLoopOneHandler(semantics, effects, hs, i, arg, queue, uow.Abs());
        error, arg := CallAndDrain(hs[i], arg);
        if error.Some? {
          return;
        }
        i := i + 1;
      }
      assert hs[i..] == [];
      error := None;
    }

    /** `_handle_command`: the one handler registered for the command's type, then a drain. */
    method HandleCommand(c: Command) returns (error: Option<Error>)
      requires Valid()
      modifies this, uow, uow.groups, uow.users
      ensures Valid()
      ensures var st := Step(semantics, effects, Cmd(c), old(queue), old(uow.Abs()),
                             eventHandlers, commandHandlers);
              error == st.error && queue == st.queue && uow.Abs() == st.world
    {
      match Lookup(commandHandlers, CommandTypeOf(c))
      case Err(_) => error := Some(KeyError);
      case Ok(h) =>
        var next;
        error, next := CallAndDrain(h, Cmd(c));
    }

    /** `await handler(arg)` and, when it returns, a drain. `next` is what the name
        `event` is bound to afterwards: with rebinding, the last event drained. */
    method CallAndDrain(h: Instance<UnitOfWork>, arg: Message)
      returns (error: Option<Error>, next: Message)
      requires Valid() && BoundTo(h, uow)
      modifies this, uow, uow.groups, uow.users
      ensures Valid()
      ensures var o := effects(h.cls, arg, old(uow.Abs()));
              && (error.Some? <==> o.result.Err?)
              && (o.result.Err? ==> error == Some(o.result.error) && queue == old(queue) && uow.Abs() == o.world)
              && (o.result.Ok? ==>
                    && queue == old(queue) + Evts(o.world.events)
                    && uow.Abs() == Drained(semantics, o.world)
                    && next == if semantics.rebind && o.world.events != [] then Evt(o.world.events[|o.world.events| - 1])
                               else arg)
    {
      var r := Invoke(uow, h, arg, passwords);
      next := arg;
      if r.Err? {
        error := Some(r.error);
        return;
      }
      var drained := uow.events;
      Drain();
      if semantics.rebind && drained != [] {
        next := Evt(drained[|drained| - 1]);
      }
      error := None;
    }

    /** `for event in self._uow.events: self._queue.put_nowait(event)`, followed, in the
        corrected bus, by emptying `uow.events`. */
    method Drain()
      requires Valid()
      modifies this, uow
      ensures Valid()
      ensures queue == old(queue) + Evts(old(uow.events))
      ensures uow.Abs() == Drained(semantics, old(uow.Abs()))
    {
      var i := 0;
      while i < |uow.events|
        invariant 0 <= i <= |uow.events|
        invariant queue == old(queue) + Evts(uow.events[..i])
        invariant unchanged(uow)
      {
        EvtsSnoc(uow.events, i);
        queue := queue + [Evt(uow.events[i])];
        i := i + 1;
      }
      assert uow.events[..i] == uow.events;
      if semantics.clearOnDrain {
        uow.ClearEvents();
      }
    }
  }
}
