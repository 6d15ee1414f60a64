/**
  The state container of src/lib/state.ts: a `State` object that holds the
  current state, the registered methods and services, an ordered list of
  subscribers and the generated `mutations` map.  A method name is bound to
  `dispatch`; a service name is bound to a direct call of the service, which
  neither stores anything nor notifies anyone.
 */
module LowerState {
  import opened Js
  import opened StateCommon

  /** A registered method or service. The source passes one `{ state, payload }`
      object; here its two fields are the two arguments. */
  type Handler = (JsValue, JsValue) -> JsValue

  /** An entry of the generated `mutations` map: `payload => this.dispatch(name, payload)`
      for a method, `payload => services[name]({ state: this.state, payload })` for a service. */
  datatype Action = Mutation(name: string) | Effect(name: string)

  /** The function `subscribe` returns; it captures the container that made
      it and the subscriber it removes. */
  datatype Unsubscriber = Unsubscriber(owner: State, fn: SubId)

  const MissingReturnMessage := "Reducer functions must return a value"

  class State {
    /** objectContext.state */
    var state: JsValue
    /** objectContext.methods */
    const methods: map<string, Handler>
    /** objectContext.services; an absent services object is the empty map */
    const services: map<string, Handler>
    var subscribers: seq<SubId>
    var mutations: map<string, Action>
    /** Every subscriber call made so far, in order. */
    ghost var log: seq<Notification>

    /** Every generated action is bound to its own name, and to a handler that exists. */
    ghost predicate Valid()
      reads this
    {
      forall name :: name in mutations ==>
        && mutations[name].name == name
        && (mutations[name].Mutation? ==> name in methods)
        && (mutations[name].Effect? ==> name in services)
    }

    /** Stores the context, starts with no subscriber and builds the action
        map: method actions first, then service actions spread over them, so
        a service wins a name it shares with a method. */
    constructor (initial: JsValue, methods: map<string, Handler>, services: map<string, Handler>)
      ensures GetState() == initial && subscribers == [] && log == []
      ensures this.methods == methods && this.services == services
      ensures mutations.Keys == methods.Keys + services.Keys
      ensures forall name :: name in services ==> mutations[name] == Effect(name)
      ensures forall name :: name in methods && name !in services ==> mutations[name] == Mutation(name)
      ensures Valid()
    {
      this.state := initial;
      this.methods := methods;
      this.services := services;
      subscribers := [];
      // `this.mutations` is still undefined while the creators run, and
      // Object.assign({}, undefined) copies nothing: the empty map.
      mutations := map[];
      log := [];
      new;
      var fromMethods := MutationCreator(methods);
      var fromServices := EffectsCreator(services);
      mutations := fromMethods + fromServices;
    }

    /** The `state` getter. */
    function GetState(): (current: JsValue)
      reads this
      ensures current == state
    {
      state
    }

    /** A copy of the current action map with one dispatching action per method name. */
    method MutationCreator(handlers: map<string, Handler>) returns (created: map<string, Action>)
      ensures created.Keys == mutations.Keys + handlers.Keys
      ensures forall name :: name in handlers ==> created[name] == Mutation(name)
      ensures forall name :: name in mutations && name !in handlers ==> created[name] == mutations[name]
    {
      created := mutations;
      var pending := handlers.Keys;
      while pending != {}
        invariant pending <= handlers.Keys
        invariant created.Keys == mutations.Keys + (handlers.Keys - pending)
        invariant forall name :: name in handlers.Keys - pending ==> created[name] == Mutation(name)
        invariant forall name :: name in mutations && name !in handlers.Keys - pending ==> created[name] == mutations[name]
        decreases pending
      {
        var name :| name in pending;
        created := created[name := Mutation(name)];
        pending := pending - {name};
      }
    }

    /** A copy of the current action map with one service-calling action per service name. */
    method EffectsCreator(handlers: map<string, Handler>) returns (created: map<string, Action>)
      ensures created.Keys == mutations.Keys + handlers.Keys
      ensures forall name :: name in handlers ==> created[name] == Effect(name)
      ensures forall name :: name in mutations && name !in handlers ==> created[name] == mutations[name]
    {
      created := mutations;
      var pending := handlers.Keys;
      while pending != {}
        invariant pending <= handlers.Keys
        invariant created.Keys == mutations.Keys + (handlers.Keys - pending)
        invariant forall name :: name in handlers.Keys - pending ==> created[name] == Effect(name)
        invariant forall name :: name in mutations && name !in handlers.Keys - pending ==> created[name] == mutations[name]
        decreases pending
      {
        var name :| name in pending;
        created := created[name := Effect(name)];
        pending := pending - {name};
      }
    }

    /** Appends `fn` to a new subscriber list and hands back its unsubscriber. */
    method Subscribe(fn: SubId) returns (unsubscribe: Unsubscriber)
      requires Valid()
      modifies this`subscribers
      ensures Valid()
      ensures subscribers == old(subscribers) + [fn]
      ensures unsubscribe == Unsubscriber(this, fn)
    {
      subscribers := subscribers + [fn];
      unsubscribe := Unsubscriber(this, fn);
    }

    /** Calling the unsubscriber: the list as it is now, without every entry identical to the captured subscriber. */
    method Unsubscribe(unsubscribe: Unsubscriber)
      requires Valid() && unsubscribe.owner == this
      modifies this`subscribers
      ensures Valid()
      ensures subscribers == Without(old(subscribers), unsubscribe.fn)
    {
      subscribers := Without(subscribers, unsubscribe.fn);
    }

    /** `reduce`: an empty type gives the state back; any other type calls the
        method of that name (calling a missing one is a TypeError). */
    function Reduce(state: JsValue, actionType: string, payload: JsValue): (reduced: Completion)
      ensures actionType == "" ==> reduced == Normal(state)
      ensures actionType != "" && actionType in methods ==> reduced == Normal(methods[actionType](state, payload))
      ensures actionType != "" && actionType !in methods ==> reduced == Throw(NotAFunction(actionType))
    {
      if actionType != "" then
        if actionType in methods then Normal(methods[actionType](state, payload))
        else Throw(NotAFunction(actionType))
      else Normal(state)
    }

    /** What dispatching `actionType` from the stored state `current` leads to:
        the state stored afterwards, or what is thrown. */
    function Transition(current: JsValue, actionType: string, payload: JsValue): (next: Completion)
      ensures next.Normal? ==> next.value == current || next.value.Obj?
      ensures next.Throw? ==> next.error == Thrown(MissingReturnMessage) || (actionType !in methods && next.error == NotAFunction(actionType))
      ensures actionType == "" ==> (next.Normal? <==> Truthy(current)) && (next.Normal? ==> next.value == current)
      ensures actionType == "" && next.Throw? ==> next.error == Thrown(MissingReturnMessage)
      ensures actionType != "" && actionType !in methods ==> next == Throw(NotAFunction(actionType))
      ensures actionType != "" && actionType in methods ==>
        var result := methods[actionType](current, payload);
        && (next.Throw? <==> !Truthy(result))
        && (next.Normal? ==> next.value == if result.Obj? then result else current)
    {
      match Reduce(current, actionType, payload)
      case Throw(e) => Throw(e)
      case Normal(reduced) => Settle(current, reduced, MissingReturnMessage)
    }

    /** The new state and log after a dispatch from `before`: on a throw
        nothing changed; otherwise the state is the transition's and every
        subscriber was called once, in order, with it. */
    ghost predicate Dispatched(before: JsValue, logBefore: seq<Notification>, actionType: string, payload: JsValue, c: Completion)
      reads this
    {
      var next := Transition(before, actionType, payload);
      if next.Throw? then c == next && state == before && log == logBefore
      else c == Normal(Undefined) && state == next.value && log == logBefore + Notifications(subscribers, state)
    }

    /** `dispatch`: reduce, throw on a falsy result, store an object result,
        then call every subscriber with the stored state. */
    method Dispatch(actionType: string, payload: JsValue) returns (c: Completion)
      requires Valid()
      modifies this`state, this`log
      ensures Valid()
      ensures Dispatched(old(state), old(log), actionType, payload, c)
    {
      var reduced := Reduce(state, actionType, payload);
      if reduced.Throw? {
        return reduced;
      }
      var newState := reduced.value;
      if !Truthy(newState) {
        return Throw(Thrown(MissingReturnMessage));
      } else if TypeOf(newState) == "object" {
        state := newState;
      }
      NotifySubscribers();
      c := Normal(Undefined);
    }

    /** `this.subscribers.forEach(fn => fn(this.state))`. */
    method NotifySubscribers()
      requires Valid()
      modifies this`log
      ensures Valid()
      ensures log == old(log) + Notifications(subscribers, state)
    {
      var i := 0;
      while i < |subscribers|
        invariant 0 <= i <= |subscribers|
        invariant log == old(log) + Notifications(subscribers[..i], state)
      {
        NotificationsSnoc(subscribers[..i], subscribers[i], state);
        assert subscribers[..i + 1] == subscribers[..i] + [subscribers[i]];
        log := log + [Notification(subscribers[i], state)];
        i := i + 1;
      }
      assert subscribers[..i] == subscribers;
    }

    /** Calling `mutations[name](payload)`: a method action dispatches, a
        service action returns what the service returns for the current
        state and changes nothing, and a name without an action is a TypeError. */
    method Call(name: string, payload: JsValue) returns (c: Completion)
      requires Valid()
      modifies this`state, this`log
      ensures Valid()
      ensures name !in mutations ==> c == Throw(NotAFunction(name)) && state == old(state) && log == old(log)
      ensures name in mutations && mutations[name].Effect? ==>
        c == Normal(services[name](old(state), payload)) && state == old(state) && log == old(log)
      ensures name in mutations && mutations[name].Mutation? ==> Dispatched(old(state), old(log), name, payload, c)
    {
      if name !in mutations {
        return Throw(NotAFunction(name));
      }
      match mutations[name]
      case Mutation(methodName) =>
        c := Dispatch(methodName, payload);
      case Effect(serviceName) =>
        c := Normal(services[serviceName](GetState(), payload));
    }
  }

  /** The script src/lib/exemple.ts, lines 3-21, replayed.  `add(1)` and
      `remove(2)` return numbers, which are truthy but not objects, so the
      state stays 0; `not()` returns that 0, which is falsy, so it throws and
      the last two calls of the script are never reached. */
  method ExampleScript()
  {
    // `state + payload` on the number operands the script passes
    var plus: Handler := (s: JsValue, p: JsValue) => if s.Num? && p.Num? then Num(s.n + p.n) else Undefined;
    var same: Handler := (s: JsValue, p: JsValue) => s;
    var assync: Handler := (s: JsValue, p: JsValue) => Obj(1, true, true);
    var methods := map["add" := plus, "remove" := plus, "not" := same, "opString" := same];
    var store := new State(Num(0), methods, map["assync" := assync]);
    assert store.mutations["add"] == Mutation("add") && store.methods["add"] == plus;
    assert store.mutations["remove"] == Mutation("remove") && store.methods["remove"] == plus;
    assert store.mutations["not"] == Mutation("not") && store.methods["not"] == same;
    var c := store.Call("add", Num(1));
    assert c == Normal(Undefined) && store.GetState() == Num(0);
    c := store.Call("remove", Num(2));
    assert c == Normal(Undefined) && store.GetState() == Num(0);
    c := store.Call("not", Undefined);
    assert c == Throw(Thrown(MissingReturnMessage)) && store.GetState() == Num(0);
  }
}
