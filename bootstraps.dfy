/** `AbstractBootstrap` and `GroupsBootstrap.get_messagebus`: the registries' handler
    classes are built around the bootstrap's unit of work and handed to a new bus. */
module Bootstraps {
  import opened Errors
  import opened Messages
  import opened UnitsOfWork
  import opened Handlers
  import opened Registries
  import MessageBusSpec
  import MessageBuses
  import UserHandlers

  /** `AbstractBootstrap.__init__` keeps the unit of work it is given as `_uow`. */
  datatype Bootstrap<D> = Bootstrap(uow: D)

  /** The dependency map `get_messagebus` injects from. */
  function Dependencies<D>(b: Bootstrap<D>): (deps: map<string, D>)
    ensures deps.Keys == {"uow"} && deps["uow"] == b.uow
  {
    map["uow" := b.uow]
  }

  /** `[await self._inject_dependencies(handler, dependencies) for handler in handlers]`:
      one instance per class, in list order; the first constructor that raises ends it. */
  function InjectList<D>(hs: seq<HandlerClass>, deps: map<string, D>): (r: Result<seq<Instance<D>>>)
    ensures r.Ok? <==> forall i :: 0 <= i < |hs| ==> InjectDependencies(hs[i], deps).Ok?
    ensures r.Ok? ==> |r.value| == |hs| &&
                      forall i :: 0 <= i < |hs| ==> InjectDependencies(hs[i], deps) == Ok(r.value[i])
    ensures r.Err? ==> r.error == TypeError
    decreases |hs|
  {
    if hs == [] then Ok([])
    else
      match InjectDependencies(hs[0], deps)
      case Err(e) => Err(e)
      case Ok(h) =>
        var rest := InjectList(hs[1..], deps);
        assert forall i :: 1 <= i < |hs| ==> hs[i] == hs[1..][i - 1];
        if rest.Err? then Err(rest.error) else Ok([h] + rest.value)
  }

  /** The injected event map: the same event types in the same order, each with its list
      of handlers built one for one. */
  function InjectEvents<D>(raw: seq<(EventType, seq<HandlerClass>)>, deps: map<string, D>)
    : (r: Result<seq<(EventType, seq<Instance<D>>)>>)
    ensures r.Ok? <==> forall i :: 0 <= i < |raw| ==> InjectList(raw[i].1, deps).Ok?
    ensures r.Ok? ==> |r.value| == |raw| &&
                      forall i :: 0 <= i < |raw| ==>
                        r.value[i].0 == raw[i].0 && InjectList(raw[i].1, deps) == Ok(r.value[i].1)
    ensures r.Err? ==> r.error == TypeError
    decreases |raw|
  {
    if raw == [] then Ok([])
    else
      match InjectList(raw[0].1, deps)
      case Err(e) => Err(e)
      case Ok(hs) =>
        var rest := InjectEvents(raw[1..], deps);
        assert forall i :: 1 <= i < |raw| ==> raw[i] == raw[1..][i - 1];
        if rest.Err? then Err(rest.error) else Ok([(raw[0].0, hs)] + rest.value)
  }

  /** The injected command map: the same command types in the same order, one instance each. */
  function InjectCommands<D>(raw: seq<(CommandType, HandlerClass)>, deps: map<string, D>)
    : (r: Result<seq<(CommandType, Instance<D>)>>)
    ensures r.Ok? <==> forall i :: 0 <= i < |raw| ==> InjectDependencies(raw[i].1, deps).Ok?
    ensures r.Ok? ==> |r.value| == |raw| &&
                      forall i :: 0 <= i < |raw| ==>
                        r.value[i].0 == raw[i].0 && InjectDependencies(raw[i].1, deps) == Ok(r.value[i].1)
    ensures r.Err? ==> r.error == TypeError
    decreases |raw|
  {
    if raw == [] then Ok([])
    else
      match InjectDependencies(raw[0].1, deps)
      case Err(e) => Err(e)
      case Ok(h) =>
        var rest := InjectCommands(raw[1..], deps);
        assert forall i :: 1 <= i < |raw| ==> raw[i] == raw[1..][i - 1];
        if rest.Err? then Err(rest.error) else Ok([(raw[0].0, h)] + rest.value)
  }

  /** What `MessageBus(...)` is given: the unit of work and the two injected maps. */
  datatype BusConfig<D> = BusConfig(uow: D, events: seq<(EventType, seq<Instance<D>>)>,
                                    commands: seq<(CommandType, Instance<D>)>)

  /** `get_messagebus` over the given registries: events first, then commands. */
  function GetMessageBus<D>(b: Bootstrap<D>, rawEvents: seq<(EventType, seq<HandlerClass>)>,
                            rawCommands: seq<(CommandType, HandlerClass)>): (r: Result<BusConfig<D>>)
    ensures r.Ok? ==> r.value.uow == b.uow
    ensures r.Ok? <==> InjectEvents(rawEvents, Dependencies(b)).Ok? && InjectCommands(rawCommands, Dependencies(b)).Ok?
  {
    match InjectEvents(rawEvents, Dependencies(b))
    case Err(e) => Err(e)
    case Ok(events) =>
      match InjectCommands(rawCommands, Dependencies(b))
      case Err(e) => Err(e)
      case Ok(commands) => Ok(BusConfig(b.uow, events, commands))
  }

  /** Every handler the bootstrap builds holds the bootstrap's own unit of work, so the
      handlers and the bus all see one `events` list. */
  predicate AllBound<D(==)>(cfg: BusConfig<D>)
  {
    && (forall i :: 0 <= i < |cfg.commands| ==> BoundTo(cfg.commands[i].1, cfg.uow))
    && (forall i, j :: 0 <= i < |cfg.events| && 0 <= j < |cfg.events[i].1| ==> BoundTo(cfg.events[i].1[j], cfg.uow))
  }

  lemma InjectedIsBound<D>(c: HandlerClass, uow: D, inst: Instance<D>)
    requires InjectDependencies(c, map["uow" := uow]) == Ok(inst)
    ensures BoundTo(inst, uow) && inst.cls == c
  {
    InjectUnitOfWork(c, uow, map[]);
    assert map[]["uow" := uow] == map["uow" := uow];
  }

  /** Whatever registries it is given, a bus the bootstrap manages to build has every
      event type and command type of the registries, in their order, with each handler
      list keeping its length and order, and every handler bound to the bootstrap's unit
      of work. */
  lemma {:induction false} BuiltBusShape<D>(b: Bootstrap<D>, rawEvents: seq<(EventType, seq<HandlerClass>)>,
                                            rawCommands: seq<(CommandType, HandlerClass)>)
    requires GetMessageBus(b, rawEvents, rawCommands).Ok?
    ensures var cfg := GetMessageBus(b, rawEvents, rawCommands).value;
            && cfg.uow == b.uow && AllBound(cfg)
            && KeysOf(cfg.events) == KeysOf(rawEvents) && KeysOf(cfg.commands) == KeysOf(rawCommands)
            && (forall i :: 0 <= i < |rawEvents| ==>
                  |cfg.events[i].1| == |rawEvents[i].1| &&
                  forall j :: 0 <= j < |rawEvents[i].1| ==> cfg.events[i].1[j].cls == rawEvents[i].1[j])
            && (forall i :: 0 <= i < |rawCommands| ==> cfg.commands[i].1.cls == rawCommands[i].1)
  {
    var cfg := GetMessageBus(b, rawEvents, rawCommands).value;
    var deps := Dependencies(b);
    assert deps == map["uow" := b.uow];
    forall i | 0 <= i < |cfg.commands|
      ensures BoundTo(cfg.commands[i].1, cfg.uow) && cfg.commands[i].1.cls == rawCommands[i].1
    {
      InjectedIsBound(rawCommands[i].1, b.uow, cfg.commands[i].1);
    }
    forall i, j | 0 <= i < |cfg.events| && 0 <= j < |cfg.events[i].1|
      ensures BoundTo(cfg.events[i].1[j], cfg.uow) && cfg.events[i].1[j].cls == rawEvents[i].1[j]
    {
      assert InjectList(rawEvents[i].1, deps) == Ok(cfg.events[i].1);
      InjectedIsBound(rawEvents[i].1[j], b.uow, cfg.events[i].1[j]);
    }
  }

  /** As written, the groups bootstrap cannot build its bus: the command registry names
      the command dataclass `AddGroupMembersCommand`, whose constructor needs
      `group_id`, `user` and `group_members`, none of which is a dependency. */
  lemma GroupsBootstrapRaises<D>(b: Bootstrap<D>)
    ensures GetMessageBus(b, GroupEventsRaw, GroupCommandsRaw) == Err(TypeError)
  {
    assert GroupCommandsRaw[3].1 == AddGroupMembersCommandClass;
    assert "user" !in Dependencies(b);
    assert InjectDependencies(GroupCommandsRaw[3].1, Dependencies(b)).Err?;
  }

  /** With the add-members entry naming its handler, the groups bootstrap builds its bus:
      the two event types and the four command types, and the lists as registered. */
  lemma GroupsBootstrapIntended<D>(b: Bootstrap<D>)
    ensures var r := GetMessageBus(b, GroupEventsRaw, GroupCommandsIntended);
            && r.Ok? && r.value.uow == b.uow && AllBound(r.value)
            && r.value.events == [(GroupMembersInvitedEvent, []),
                                  (GroupMembersAddedToGroupEvent, [Instance(GroupMembersAddedToGroupEventHandler, map["uow" := b.uow])])]
            && KeysOf(r.value.commands) == KeysOf(GroupCommandsIntended)
  {
    var deps := Dependencies(b);
    assert deps == map["uow" := b.uow];
    forall i | 0 <= i < |GroupCommandsIntended|
      ensures InjectDependencies(GroupCommandsIntended[i].1, deps).Ok?
    {
      InjectUnitOfWork(GroupCommandsIntended[i].1, b.uow, map[]);
      assert map[]["uow" := b.uow] == deps;
    }
    InjectUnitOfWork(GroupMembersAddedToGroupEventHandler, b.uow, map[]);
    assert map[]["uow" := b.uow] == deps;
    var hs := [GroupMembersAddedToGroupEventHandler];
    assert hs[1..] == [];
    assert InjectDependencies(hs[0], deps) == Ok(Instance(GroupMembersAddedToGroupEventHandler, map["uow" := b.uow]));
    assert InjectList(hs[1..], deps) == Ok([]);
    var r := InjectList(hs, deps);
    assert r.Ok?;
    assert |r.value| == 1;
    assert r.value[0] == Instance(GroupMembersAddedToGroupEventHandler, map["uow" := b.uow]);
    assert r.value == [Instance(GroupMembersAddedToGroupEventHandler, map["uow" := b.uow])];
    assert GroupEventsRaw[1..][1..] == [];
    BuiltBusShape(b, GroupEventsRaw, GroupCommandsIntended);
  }

  /** `get_messagebus` as a call that returns the bus object: when the registries can be
      built, a new bus with an empty queue, the bootstrap's unit of work and the injected maps. */
  method NewMessageBus(b: Bootstrap<UnitOfWork>, rawEvents: seq<(EventType, seq<HandlerClass>)>,
                       rawCommands: seq<(CommandType, HandlerClass)>, semantics: MessageBusSpec.Semantics,
                       pw: UserHandlers.Passwords)
    returns (r: Result<MessageBuses.MessageBus>)
    requires b.uow.Valid()
    ensures r.Ok? <==> GetMessageBus(b, rawEvents, rawCommands).Ok?
    ensures r.Err? ==> r.error == TypeError
    ensures r.Ok? ==>
              var cfg := GetMessageBus(b, rawEvents, rawCommands).value;
              && fresh(r.value) && r.value.Valid() && r.value.queue == []
              && r.value.uow == b.uow && r.value.semantics == semantics
              && r.value.eventHandlers == cfg.events && r.value.commandHandlers == cfg.commands
  {
    match GetMessageBus(b, rawEvents, rawCommands)
    case Err(e) => r := Err(e);
    case Ok(cfg) =>
      BuiltBusShape(b, rawEvents, rawCommands);
      var bus := new MessageBuses.MessageBus(b.uow, semantics, cfg.events, cfg.commands, pw);
      r := Ok(bus);
  }
}
