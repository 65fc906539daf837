/** What the bus loop guarantees, and where the code as written departs from its intent. */
module MessageBusProperties {
  import opened Errors
  import opened Models
  import opened Messages
  import opened UnitsOfWork
  import opened Handlers
  import opened Registries
  import opened MessageBusSpec
  import GroupHandlers
  import UserHandlers

  /** A command is handed to the one handler registered under its type, which is called
      once; after it returns, all of `uow.events` go to the back of the queue in list
      order, and when it raises, nothing goes on the queue. */
  lemma CommandDispatchedOnce(s: Semantics, eff: Effects, c: Command, q: seq<Message>, w: World,
                              events: EventTable, commands: CommandTable, h: Instance<UnitOfWork>)
    requires Lookup(commands, CommandTypeOf(c)) == Ok(h)
    ensures var st := Step(s, eff, Cmd(c), q, w, events, commands);
            var o := eff(h.cls, Cmd(c), w);
            st.calls == [Call(h.cls, Cmd(c))] &&
            (o.result.Ok? ==> st.error.None? && st.queue == q + Evts(o.world.events) &&
                              st.world == Drained(s, o.world)) &&
            (o.result.Err? ==> st.error == Some(o.result.error) && st.queue == q && st.world == o.world)
  {
  }

  /** FIFO: the messages queued before the loop starts are taken off first, in order,
      and everything put on the queue meanwhile goes behind them. */
  predicate Fifo(q: seq<Message>, r: RunResult)
  {
    q <= r.dequeued + r.queue
  }

  lemma {:induction false} RunKeepsFifo(s: Semantics, eff: Effects, fuel: nat, q: seq<Message>, w: World,
                                        events: EventTable, commands: CommandTable)
    ensures Fifo(q, Run(s, eff, fuel, q, w, events, commands))
    decreases fuel
  {
    if q != [] && fuel > 0 {
      RunTrip(s, eff, fuel, q, w, events, commands);
      var st := Step(s, eff, q[0], q[1..], w, events, commands);
      var r := Run(s, eff, fuel, q, w, events, commands);
      if st.error.None? {
        var rest := Run(s, eff, fuel - 1, st.queue, st.world, events, commands);
        RunKeepsFifo(s, eff, fuel - 1, st.queue, st.world, events, commands);
        FifoTrip(q, st.queue, rest.dequeued, rest.queue);
        assert r.dequeued == [q[0]] + rest.dequeued && r.queue == rest.queue;
      } else {
        FifoTrip(q, st.queue, [], st.queue);
        assert r.dequeued == [q[0]] + [] && r.queue == st.queue;
      }
    }
  }

  /** A command whose type is not registered fails the lookup before anything runs. */
  lemma {:induction false} UnregisteredCommandRaises(s: Semantics, eff: Effects, fuel: nat, c: Command, q: seq<Message>,
                                                     w: World, events: EventTable, commands: CommandTable)
    requires fuel > 0 && Lookup(commands, CommandTypeOf(c)).Err?
    ensures var r := Run(s, eff, fuel, [Cmd(c)] + q, w, events, commands);
            r.status == Raised(KeyError) && r.world == w && r.queue == q && r.calls == []
  {
    assert ([Cmd(c)] + q)[0] == Cmd(c) && ([Cmd(c)] + q)[1..] == q;
  }

  /** A message that is neither a command nor an event ends the loop with
      `MessageBusMessageError`, after being taken off the queue. */
  lemma {:induction false} OtherMessageRaises(s: Semantics, eff: Effects, fuel: nat, name: string, q: seq<Message>,
                                              w: World, events: EventTable, commands: CommandTable)
    requires fuel > 0
    ensures var r := Run(s, eff, fuel, [Other(name)] + q, w, events, commands);
            r.status == Raised(MessageBusMessageError) && r.world == w && r.queue == q &&
            r.dequeued == [Other(name)] && r.calls == []
  {
    assert ([Other(name)] + q)[0] == Other(name) && ([Other(name)] + q)[1..] == q;
  }

  /** An event type registered with no handlers is taken off the queue and nothing else happens. */
  lemma EmptyHandlerListIsNoop(s: Semantics, eff: Effects, e: Event, q: seq<Message>, w: World,
                               events: EventTable, commands: CommandTable)
    requires Lookup(events, EventTypeOf(e)) == Ok([])
    ensures Step(s, eff, Evt(e), q, w, events, commands) == StepResult(None, q, w, [])
  {
  }

  /** With two handlers for one event, the queue is drained after each of them, and,
      since nothing clears `uow.events`, the events the first drain put on the queue are
      put on it again by the second. */
  lemma {:induction false} DrainAfterEachHandler(s: Semantics, eff: Effects, h1: Instance<UnitOfWork>,
                                                 h2: Instance<UnitOfWork>, arg: Message, q: seq<Message>, w: World)
    requires EventsGrow(eff) && !s.clearOnDrain
    ensures var o1 := eff(h1.cls, arg, w);
            var next := if s.rebind && o1.world.events != [] then Evt(o1.world.events[|o1.world.events| - 1]) else arg;
            var o2 := eff(h2.cls, next, o1.world);
            var r := EventLoop(s, eff, [h1, h2], arg, q, w);
            o1.result.Ok? && o2.result.Ok? ==>
              r.error.None? && o1.world.events <= o2.world.events &&
              r.queue == q + Evts(o1.world.events) + Evts(o2.world.events)
  {
    var o1 := eff(h1.cls, arg, w);
    var next := if s.rebind && o1.world.events != [] then Evt(o1.world.events[|o1.world.events| - 1]) else arg;
    var o2 := eff(h2.cls, next, o1.world);
    assert o1.world.events <= o2.world.events;
    if o1.result.Ok? && o2.result.Ok? {
      TwoHandlers(s, eff, h1, h2, arg, q, w);
    }
  }

  /** The event loop over one handler, unfolded. */
  lemma OneHandler(s: Semantics, eff: Effects, h: Instance<UnitOfWork>, arg: Message, q: seq<Message>, w: World)
    ensures var o := eff(h.cls, arg, w);
            var r := EventLoop(s, eff, [h], arg, q, w);
            r.calls == [Call(h.cls, arg)] &&
            (o.result.Ok? ==> r == StepResult(None, q + Evts(o.world.events), Drained(s, o.world), [Call(h.cls, arg)])) &&
            (o.result.Err? ==> r == StepResult(Some(o.result.error), q, o.world, [Call(h.cls, arg)]))
  {
    var o := eff(h.cls, arg, w);
    assert [h][1..] == [];
    if o.result.Ok? {
      var next := if s.rebind && o.world.events != [] then Evt(o.world.events[|o.world.events| - 1]) else arg;
      var r1 := EventLoop(s, eff, [], next, q + Evts(o.world.events), Drained(s, o.world));
      assert r1 == StepResult(None, q + Evts(o.world.events), Drained(s, o.world), []);
    }
  }

  /** The event loop over two handlers that both return, unfolded. */
  lemma TwoHandlers(s: Semantics, eff: Effects, h1: Instance<UnitOfWork>, h2: Instance<UnitOfWork>,
                    arg: Message, q: seq<Message>, w: World)
    requires eff(h1.cls, arg, w).result.Ok?
    ensures var o1 := eff(h1.cls, arg, w);
            var next := if s.rebind && o1.world.events != [] then Evt(o1.world.events[|o1.world.events| - 1]) else arg;
            var w1 := Drained(s, o1.world);
            var o2 := eff(h2.cls, next, w1);
            var r := EventLoop(s, eff, [h1, h2], arg, q, w);
            r.calls == [Call(h1.cls, arg), Call(h2.cls, next)] &&
            (o2.result.Ok? ==> r.error.None? && r.queue == q + Evts(o1.world.events) + Evts(o2.world.events) &&
                               r.world == Drained(s, o2.world)) &&
            (o2.result.Err? ==> r.error == Some(o2.result.error) && r.queue == q + Evts(o1.world.events) &&
                                r.world == o2.world)
  {
    var o1 := eff(h1.cls, arg, w);
    var next := if s.rebind && o1.world.events != [] then Evt(o1.world.events[|o1.world.events| - 1]) else arg;
    var w1 := Drained(s, o1.world);
    var q1 := q + Evts(o1.world.events);
    OneHandler(s, eff, h2, next, q1, w1);
    assert [h1, h2][1..] == [h2];
    var r2 := EventLoop(s, eff, [h2], next, q1, w1);
    assert EventLoop(s, eff, [h1, h2], arg, q, w) == r2.(calls := [Call(h1.cls, arg)] + r2.calls);
  }

  /** The inner drain loop rebinds `event`: when the first handler of an event leaves
      events behind, the second handler gets the last of them instead of the event. */
  lemma {:induction false} SecondHandlerGetsLastDrained(s: Semantics, eff: Effects, h1: Instance<UnitOfWork>,
                                                        h2: Instance<UnitOfWork>, arg: Message, q: seq<Message>, w: World)
    requires s.rebind && eff(h1.cls, arg, w).result.Ok? && eff(h1.cls, arg, w).world.events != []
    ensures var o1 := eff(h1.cls, arg, w);
            var r := EventLoop(s, eff, [h1, h2], arg, q, w);
            r.calls == [Call(h1.cls, arg), Call(h2.cls, Evt(o1.world.events[|o1.world.events| - 1]))]
  {
    TwoHandlers(s, eff, h1, h2, arg, q, w);
  }

  /** Without rebinding every handler of an event gets the event itself. */
  lemma {:induction false} SecondHandlerGetsEvent(s: Semantics, eff: Effects, h1: Instance<UnitOfWork>,
                                                  h2: Instance<UnitOfWork>, arg: Message, q: seq<Message>, w: World)
    requires !s.rebind && eff(h1.cls, arg, w).result.Ok?
    ensures EventLoop(s, eff, [h1, h2], arg, q, w).calls == [Call(h1.cls, arg), Call(h2.cls, arg)]
  {
    TwoHandlers(s, eff, h1, h2, arg, q, w);
  }

  /** The event an add-members command leaves in `uow.events` comes back to the queue at
      every drain when nothing clears the list: the bus never gets its queue empty. */
  lemma {:induction false} EchoForever(s: Semantics, eff: Effects, fuel: nat, e: Event, w: World,
                                       events: EventTable, commands: CommandTable, h: Instance<UnitOfWork>)
    requires !s.clearOnDrain && w.events == [e]
    requires Lookup(events, EventTypeOf(e)) == Ok([h]) && eff(h.cls, Evt(e), w) == Outcome(w, Ok(NoReply))
    ensures Run(s, eff, fuel, [Evt(e)], w, events, commands).status == OutOfFuel
    decreases fuel
  {
    if fuel > 0 {
      var st := Step(s, eff, Evt(e), [], w, events, commands);
      OneHandler(s, eff, h, Evt(e), [], w);
      assert Evts([e]) == [Evt(e)];
      assert st.queue == [Evt(e)] && st.world == w;
      EchoForever(s, eff, fuel - 1, e, w, events, commands, h);
    }
  }

  /** The world in which adding members succeeds: the group exists and belongs to the user. */
  predicate AddSucceeds(w: World, groupId: int, user: User)
  {
    groupId in w.groups.entries && GroupHandlers.Owns(user, w.groups.entries[groupId])
  }

  /** A command whose handler raises exactly one event, handled by one handler that
      leaves the world alone: without clearing, the event is drained again on every trip. */
  lemma {:induction false} CommandEchoForever(s: Semantics, eff: Effects, fuel: nat, c: Command, w: World,
                                              events: EventTable, commands: CommandTable,
                                              hc: Instance<UnitOfWork>, h: Instance<UnitOfWork>, e: Event)
    requires !s.clearOnDrain && Lookup(commands, CommandTypeOf(c)) == Ok(hc)
    requires eff(hc.cls, Cmd(c), w).result.Ok? && eff(hc.cls, Cmd(c), w).world.events == [e]
    requires Lookup(events, EventTypeOf(e)) == Ok([h])
    requires var w1 := eff(hc.cls, Cmd(c), w).world; eff(h.cls, Evt(e), w1) == Outcome(w1, Ok(NoReply))
    ensures Run(s, eff, fuel, [Cmd(c)], w, events, commands).status == OutOfFuel
  {
    if fuel > 0 {
      var w1 := eff(hc.cls, Cmd(c), w).world;
      CommandDispatchedOnce(s, eff, c, [], w, events, commands, hc);
      assert Evts([e]) == [Evt(e)] && [Cmd(c)][0] == Cmd(c) && [Cmd(c)][1..] == [];
      RunTrip(s, eff, fuel, [Cmd(c)], w, events, commands);
      EchoForever(s, eff, fuel - 1, e, w1, events, commands, h);
    }
  }

  /** The same command with drained events cleared: two trips, then an empty queue. */
  lemma CommandSettlesWhenCleared(s: Semantics, eff: Effects, fuel: nat, c: Command, w: World,
                                  events: EventTable, commands: CommandTable,
                                  hc: Instance<UnitOfWork>, h: Instance<UnitOfWork>, e: Event)
    requires s.clearOnDrain && !s.conditionGuard && fuel >= 2 && Lookup(commands, CommandTypeOf(c)) == Ok(hc)
    requires eff(hc.cls, Cmd(c), w).result.Ok? && eff(hc.cls, Cmd(c), w).world.events == [e]
    requires Lookup(events, EventTypeOf(e)) == Ok([h])
    requires var w1 := eff(hc.cls, Cmd(c), w).world.(events := []); eff(h.cls, Evt(e), w1) == Outcome(w1, Ok(NoReply))
    ensures var r := Run(s, eff, fuel, [Cmd(c)], w, events, commands);
            r.status == Done && r.world == eff(hc.cls, Cmd(c), w).world.(events := []) &&
            r.dequeued == [Cmd(c), Evt(e)] && r.calls == [Call(hc.cls, Cmd(c)), Call(h.cls, Evt(e))]
  {
    var w1 := eff(hc.cls, Cmd(c), w).world.(events := []);
    CommandDispatchedOnce(s, eff, c, [], w, events, commands, hc);
    assert Evts([e]) == [Evt(e)] && [Cmd(c)][0] == Cmd(c) && [Cmd(c)][1..] == [];
    RunTrip(s, eff, fuel, [Cmd(c)], w, events, commands);
    EventSettlesWhenCleared(s, eff, fuel - 1, w1, events, commands, h, e);
  }

  /** With clearing, an event whose one handler changes nothing is handled once and the
      loop ends. */
  lemma EventSettlesWhenCleared(s: Semantics, eff: Effects, fuel: nat, w: World,
                                events: EventTable, commands: CommandTable, h: Instance<UnitOfWork>, e: Event)
    requires s.clearOnDrain && !s.conditionGuard && fuel >= 1 && w.events == []
    requires Lookup(events, EventTypeOf(e)) == Ok([h]) && eff(h.cls, Evt(e), w) == Outcome(w, Ok(NoReply))
    ensures Run(s, eff, fuel, [Evt(e)], w, events, commands) == RunResult(Done, [], w, [Evt(e)], [Call(h.cls, Evt(e))])
  {
    OneHandler(s, eff, h, Evt(e), [], w);
    assert Evts([]) == [] && w.(events := []) == w;
    assert Step(s, eff, Evt(e), [], w, events, commands) == StepResult(None, [], w, [Call(h.cls, Evt(e))]);
    assert [Evt(e)][0] == Evt(e) && [Evt(e)][1..] == [];
    RunTrip(s, eff, fuel, [Evt(e)], w, events, commands);
    assert Run(s, eff, fuel - 1, [], w, events, commands) == RunResult(Done, [], w, [], []);
  }

  /** A successful add-members command: its handler's outcome and the one event it raises. */
  lemma AddMembersEffect(pw: UserHandlers.Passwords, groupId: int, user: User, members: seq<User>, w: World)
    requires WorldValid(w) && w.events == [] && AddSucceeds(w, groupId, user)
    ensures var o := GroupHandlers.AfterAddMembers(w, groupId, user, members);
            var e := GroupHandlers.AddedEvent(w.groups.entries[groupId], user, members);
            HandlerEffects(pw)(AddGroupMembersCommandHandler, Cmd(AddGroupMembers(groupId, user, members)), w) == o &&
            o.result.Ok? && WorldValid(o.world) && o.world.events == [e] &&
            EventTypeOf(e) == GroupMembersAddedToGroupEvent
  {
    assert HandlerEffects(pw)(AddGroupMembersCommandHandler, Cmd(AddGroupMembers(groupId, user, members)), w)
           == Effect(AddGroupMembersCommandHandler, Cmd(AddGroupMembers(groupId, user, members)), w, pw);
  }

  /** The group-members-added handler only logs: it answers and leaves the world alone. */
  lemma AddedEventHandled(pw: UserHandlers.Passwords, e: Event, w: World)
    requires WorldValid(w)
    ensures HandlerEffects(pw)(GroupMembersAddedToGroupEventHandler, Evt(e), w) == Outcome(w, Ok(NoReply))
  {
    assert HandlerEffects(pw)(GroupMembersAddedToGroupEventHandler, Evt(e), w)
           == Effect(GroupMembersAddedToGroupEventHandler, Evt(e), w, pw);
  }

  /** As written, a successful add-members command never lets `handle` finish. */
  lemma AddMembersNeverSettles(s: Semantics, fuel: nat, groupId: int, user: User, members: seq<User>,
                               w: World, events: EventTable, commands: CommandTable,
                               pw: UserHandlers.Passwords, h: Instance<UnitOfWork>, hc: Instance<UnitOfWork>)
    requires WorldValid(w) && w.events == [] && AddSucceeds(w, groupId, user) && !s.clearOnDrain
    requires Lookup(commands, AddGroupMembersCommand) == Ok(hc) && hc.cls == AddGroupMembersCommandHandler
    requires Lookup(events, GroupMembersAddedToGroupEvent) == Ok([h]) && h.cls == GroupMembersAddedToGroupEventHandler
    ensures Run(s, HandlerEffects(pw), fuel, [Cmd(AddGroupMembers(groupId, user, members))], w, events, commands).status
            == OutOfFuel
  {
    var o := GroupHandlers.AfterAddMembers(w, groupId, user, members);
    var e := GroupHandlers.AddedEvent(w.groups.entries[groupId], user, members);
    AddMembersEffect(pw, groupId, user, members, w);
    AddedEventHandled(pw, e, o.world);
    CommandEchoForever(s, HandlerEffects(pw), fuel, AddGroupMembers(groupId, user, members), w, events, commands, hc, h, e);
  }

  /** With drained events cleared, the same command settles after two trips, with the
      members added and the event handled once. */
  lemma AddMembersSettlesWhenCleared(fuel: nat, groupId: int, user: User, members: seq<User>,
                                     w: World, events: EventTable, commands: CommandTable,
                                     pw: UserHandlers.Passwords, h: Instance<UnitOfWork>, hc: Instance<UnitOfWork>)
    requires WorldValid(w) && w.events == [] && AddSucceeds(w, groupId, user) && fuel >= 2
    requires Lookup(commands, AddGroupMembersCommand) == Ok(hc) && hc.cls == AddGroupMembersCommandHandler
    requires Lookup(events, GroupMembersAddedToGroupEvent) == Ok([h]) && h.cls == GroupMembersAddedToGroupEventHandler
    ensures var m := Cmd(AddGroupMembers(groupId, user, members));
            var r := Run(Intended, HandlerEffects(pw), fuel, [m], w, events, commands);
            var e := GroupHandlers.AddedEvent(w.groups.entries[groupId], user, members);
            r.status == Done && r.world.events == [] &&
            r.world.groups == GroupHandlers.AfterAddMembers(w, groupId, user, members).world.groups &&
            r.dequeued == [m, Evt(e)] && r.calls == [Call(hc.cls, m), Call(h.cls, Evt(e))]
  {
    var o := GroupHandlers.AfterAddMembers(w, groupId, user, members);
    var e := GroupHandlers.AddedEvent(w.groups.entries[groupId], user, members);
    AddMembersEffect(pw, groupId, user, members, w);
    AddedEventHandled(pw, e, o.world.(events := []));
    CommandSettlesWhenCleared(Intended, HandlerEffects(pw), fuel, AddGroupMembers(groupId, user, members), w,
                              events, commands, hc, h, e);
  }

  /** The `Queue.not_empty` guard is always truthy: where the queue-empty guard would end
      the loop, the written loop calls `get()` on an empty queue and waits for ever. */
  lemma {:induction false} ConditionGuardBlocks(s: Semantics, eff: Effects, fuel: nat, q: seq<Message>, w: World,
                                                events: EventTable, commands: CommandTable)
    requires s.conditionGuard
    ensures var written := Run(s, eff, fuel, q, w, events, commands);
            var guarded := Run(s.(conditionGuard := false), eff, fuel, q, w, events, commands);
            written.queue == guarded.queue && written.world == guarded.world &&
            written.dequeued == guarded.dequeued && written.calls == guarded.calls &&
            (guarded.status == Done <==> written.status == Blocked) &&
            (guarded.status != Done ==> written.status == guarded.status)
  {
    RunBlocksWhereDone(s, eff, fuel, q, w, events, commands);
  }

  /** The status the condition-object guard gives a finished run: it blocks where the
      queue-empty guard would end. */
  function Blocking(r: RunResult): (b: RunResult)
    ensures b.queue == r.queue && b.world == r.world && b.dequeued == r.dequeued && b.calls == r.calls
    ensures b.status == (if r.status == Done then Blocked else r.status)
  {
    if r.status == Done then r.(status := Blocked) else r
  }

  lemma {:induction false} RunBlocksWhereDone(s: Semantics, eff: Effects, fuel: nat, q: seq<Message>, w: World,
                                              events: EventTable, commands: CommandTable)
    requires s.conditionGuard
    ensures Run(s, eff, fuel, q, w, events, commands)
            == Blocking(Run(s.(conditionGuard := false), eff, fuel, q, w, events, commands))
    decreases fuel
  {
    if q != [] && fuel > 0 {
      var g := s.(conditionGuard := false);
      var st := Step(s, eff, q[0], q[1..], w, events, commands);
      StepIgnoresGuard(s, g, eff, q[0], q[1..], w, events, commands);
      if st.error.None? {
        RunBlocksWhereDone(s, eff, fuel - 1, st.queue, st.world, events, commands);
      }
    }
  }

  lemma StepIgnoresGuard(s: Semantics, g: Semantics, eff: Effects, m: Message, q: seq<Message>, w: World,
                         events: EventTable, commands: CommandTable)
    requires g == s.(conditionGuard := false)
    ensures Step(s, eff, m, q, w, events, commands) == Step(g, eff, m, q, w, events, commands)
  {
    if m.Evt? {
      match Lookup(events, EventTypeOf(m.event))
      case Err(_) =>
      case Ok(hs) => EventLoopIgnoresGuard(s, g, eff, hs, m, q, w);
    }
  }

  lemma {:induction false} EventLoopIgnoresGuard(s: Semantics, g: Semantics, eff: Effects, hs: seq<Instance<UnitOfWork>>,
                                                 arg: Message, q: seq<Message>, w: World)
    requires g == s.(conditionGuard := false)
    ensures EventLoop(s, eff, hs, arg, q, w) == EventLoop(g, eff, hs, arg, q, w)
    decreases |hs|
  {
    if hs != [] {
      var o := eff(hs[0].cls, arg, w);
      if o.result.Ok? {
        var drained := o.world.events;
        var next := if s.rebind && drained != [] then Evt(drained[|drained| - 1]) else arg;
        EventLoopIgnoresGuard(s, g, eff, hs[1..], next, q + Evts(drained), Drained(s, o.world));
      }
    }
  }
}
