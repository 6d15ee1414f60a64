/**
  The state container of src/lib/State.ts: the other draft of the `State`
  class.  Every method and service name gets an action that goes through
  `dispatch`; `reduce` merges the services into the context's methods object
  in place on every call, and keeps the old state when the handler returns
  something with a `then` or `catch` function (a promise).
 */
module UpperState {
  import opened Js
  import opened StateCommon

  /** A registered method `(state, payload) => state` or service
      `(state, payload) => Promise`; a service's promise is the value it returns. */
  type Handler = (JsValue, JsValue) -> JsValue

  /** An entry of the generated `mutations` map: `payload => this.dispatch(name, payload)`. */
  datatype Action = Dispatcher(name: string)

  /** The function `subscribe` returns; it captures the container that made
      it and the subscriber it removes. */
  datatype Unsubscriber = Unsubscriber(owner: State, fn: SubId)

  const MissingReturnMessage := "Reducer and SideEffect functions must return a value"

  /** `typeof v.then === 'function' || typeof v.catch === 'function'`, for a
      value whose properties can be read. */
  predicate Thenable(v: JsValue)
    requires !Nullish(v)
    ensures Thenable(v) <==> v.Obj? && (v.thenIsFunction || v.catchIsFunction)
  {
    PropertyIsFunction(v, "then") || PropertyIsFunction(v, "catch")
  }

  /** What `reduce` returns when the handlers object is `handlers`: an empty
      type gives the state back; otherwise the handler of that name is
      called, reading `then` of an undefined or null result is a TypeError,
      and a promise-like result gives the old state back. */
  function Reduction(handlers: map<string, Handler>, state: JsValue, actionType: string, payload: JsValue): (reduced: Completion)
    ensures actionType == "" ==> reduced == Normal(state)
    ensures actionType != "" && actionType !in handlers ==> reduced == Throw(NotAFunction(actionType))
    ensures actionType != "" && actionType in handlers ==>
      var result := handlers[actionType](state, payload);
      && (Nullish(result) ==> reduced == Throw(NullishPropertyRead("then")))
      && (!Nullish(result) && Thenable(result) ==> reduced == Normal(state))
      && (!Nullish(result) && !Thenable(result) ==> reduced == Normal(result))
  {
    if actionType == "" then Normal(state)
    else if actionType !in handlers then Throw(NotAFunction(actionType))
    else
      var result := handlers[actionType](state, payload);
      if Nullish(result) then Throw(NullishPropertyRead("then"))
      else if Thenable(result) then Normal(state)
      else Normal(result)
  }

  /** What dispatching `actionType` from the stored state `current` leads
      to, with `handlers` as the merged handlers object: the state stored
      afterwards, or what is thrown. */
  function Transition(handlers: map<string, Handler>, current: JsValue, actionType: string, payload: JsValue): (next: Completion)
    ensures next.Normal? ==> next.value == current || next.value.Obj?
    ensures next.Throw? ==>
      || next.error == Thrown(MissingReturnMessage)
      || next.error == NullishPropertyRead("then")
      || (actionType !in handlers && next.error == NotAFunction(actionType))
    ensures actionType == "" ==> (next.Normal? <==> Truthy(current)) && (next.Normal? ==> next.value == current)
    ensures actionType == "" && next.Throw? ==> next.error == Thrown(MissingReturnMessage)
    ensures actionType != "" && actionType !in handlers ==> next == Throw(NotAFunction(actionType))
    ensures actionType != "" && actionType in handlers ==>
      var result := handlers[actionType](current, payload);
      && (Nullish(result) ==> next == Throw(NullishPropertyRead("then")))
      && (!Nullish(result) && next.Throw? ==> next.error == Thrown(MissingReturnMessage))
      && (!Nullish(result) && Thenable(result) ==>
            (next.Normal? <==> Truthy(current)) && (next.Normal? ==> next.value == current))
      && (!Nullish(result) && !Thenable(result) ==>
            (next.Throw? <==> !Truthy(result)) && (next.Normal? ==> next.value == if result.Obj? then result else current))
  {
    match Reduction(handlers, current, actionType, payload)
    case Throw(e) => Throw(e)
    case Normal(reduced) => Settle(current, reduced, MissingReturnMessage)
  }

  /** Merging the services a second time changes nothing, so once a
      dispatch has merged them, later dispatches leave the methods object as
      it is. */
  lemma MergeIdempotent(methods: map<string, Handler>, services: map<string, Handler>)
    ensures (methods + services) + services == methods + services
  {
  }

  /** On a name registered both as a method and as a service, the merged
      handlers object dispatches to the service: the method plays no part. */
  lemma ServiceWinsClash(methods: map<string, Handler>, services: map<string, Handler>,
                         current: JsValue, name: string, payload: JsValue)
    requires name in services
    ensures Transition(methods + services, current, name, payload) == Transition(services, current, name, payload)
  {
  }

  class State {
    /** context.state */
    var state: JsValue
    /** context.methods, into which `reduce` merges the services */
    var methods: map<string, Handler>
    /** context.services; an absent services object is the empty map */
    const services: map<string, Handler>
    var subscribers: seq<SubId>
    var mutations: map<string, Action>
    /** Every subscriber call made so far, in order. */
    ghost var log: seq<Notification>

    /** The services have been merged into the methods object: merging
        them again changes nothing. */
    ghost predicate Merged()
      reads this
    {
      methods == methods + services
    }

    /** Every generated action dispatches its own name. */
    ghost predicate Valid()
      reads this
    {
      forall name :: name in mutations ==> mutations[name] == Dispatcher(name)
    }

    /** Stores the context, starts with no subscriber and builds one action
        per method or service name. */
    constructor (initial: JsValue, methods: map<string, Handler>, services: map<string, Handler>)
      ensures GetState() == initial && subscribers == [] && log == []
      ensures this.methods == methods && this.services == services
      ensures mutations.Keys == methods.Keys + services.Keys
      ensures Valid()
    {
      this.state := initial;
      this.methods := methods;
      this.services := services;
      subscribers := [];
      // `this.mutations` is still undefined while `actionCreator` runs, and
      // Object.assign({}, undefined) copies nothing: the empty map.
      mutations := map[];
      log := [];
      new;
      mutations := ActionCreator(methods, services);
    }

    /** The `state` getter. */
    function GetState(): (current: JsValue)
      reads this
      ensures current == state
    {
      state
    }

    /** A copy of the current action map with one dispatching action per key
        of `{ ...methods, ...services }`. */
    method ActionCreator(methods: map<string, Handler>, services: map<string, Handler>) returns (created: map<string, Action>)
      ensures created.Keys == mutations.Keys + methods.Keys + services.Keys
      ensures forall name :: name in methods || name in services ==> created[name] == Dispatcher(name)
      ensures forall name :: name in mutations && name !in methods && name !in services ==> created[name] == mutations[name]
    {
      created := mutations;
      var pending := (methods + services).Keys;
      ghost var all := pending;
      while pending != {}
        invariant pending <= all
        invariant created.Keys == mutations.Keys + (all - pending)
        invariant forall name :: name in all - pending ==> created[name] == Dispatcher(name)
        invariant forall name :: name in mutations && name !in all - pending ==> created[name] == mutations[name]
        decreases pending
      {
        var name :| name in pending;
        created := created[name := Dispatcher(name)];
        pending := pending - {name};
      }
    }

    /** Appends `fn` to a new subscriber list and hands back its unsubscriber. */
    method Subscribe(fn: SubId) returns (unsubscribe: Unsubscriber)
      requires Valid()
      modifies this`subscribers
      ensures Valid()
      ensures subscribers == old(subscribers) + [fn]
      ensures unsubscribe == Unsubscriber(this, fn)
    {
      subscribers := subscribers + [fn];
      unsubscribe := Unsubscriber(this, fn);
    }

    /** Calling the unsubscriber: the list as it is now, without every entry identical to the captured subscriber. */
    method Unsubscribe(unsubscribe: Unsubscriber)
      requires Valid() && unsubscribe.owner == this
      modifies this`subscribers
      ensures Valid()
      ensures subscribers == Without(old(subscribers), unsubscribe.fn)
    {
      subscribers := Without(subscribers, unsubscribe.fn);
    }

    /** `reduce`: first merges the services into the methods object in
        place (whatever the type, and before anything can throw), then
        looks the type up in the merged object. */
    method Reduce(state: JsValue, actionType: string, payload: JsValue) returns (reduced: Completion)
      requires Valid()
      modifies this`methods
      ensures Valid() && Merged()
      ensures methods == old(methods) + services
      ensures reduced == Reduction(methods, state, actionType, payload)
    {
      methods := methods + services;
      MergeIdempotent(old(methods), services);
      var handlers := methods;
      if actionType != "" {
        if actionType !in handlers {
          return Throw(NotAFunction(actionType));
        }
        var newState := handlers[actionType](state, payload);
        if Nullish(newState) {
          return Throw(NullishPropertyRead("then"));
        }
        if PropertyIsFunction(newState, "then") || PropertyIsFunction(newState, "catch") {
          return Normal(state);
        }
        return Normal(newState);
      }
      return Normal(state);
    }

    /** The new state and log after a dispatch from `before` with the merged
        `handlers`: on a throw nothing changed; otherwise the state is the
        transition's and every subscriber was called once, in order, with it. */
    ghost predicate Dispatched(handlers: map<string, Handler>, before: JsValue, logBefore: seq<Notification>,
                               actionType: string, payload: JsValue, c: Completion)
      reads this
    {
      var next := Transition(handlers, before, actionType, payload);
      if next.Throw? then c == next && state == before && log == logBefore
      else c == Normal(Undefined) && state == next.value && log == logBefore + Notifications(subscribers, state)
    }

    /** `dispatch`: reduce, throw on a falsy result, store an object result,
        then call every subscriber with the stored state.  The merge done by
        `reduce` stays even when the dispatch throws. */
    method Dispatch(actionType: string, payload: JsValue) returns (c: Completion)
      requires Valid()
      modifies this`methods, this`state, this`log
      ensures Valid() && Merged()
      ensures methods == old(methods) + services
      ensures old(Merged()) ==> methods == old(methods)
      ensures Dispatched(methods, old(state), old(log), actionType, payload, c)
    {
      var reduced := Reduce(state, actionType, payload);
      if reduced.Throw? {
        return reduced;
      }
      var newState := reduced.value;
      if !Truthy(newState) {
        return Throw(Thrown(MissingReturnMessage));
      } else if TypeOf(newState) == "object" {
        state := newState;
      }
      NotifySubscribers();
      c := Normal(Undefined);
    }

    /** `this.subscribers.forEach(fn => fn(this.state))`. */
    method NotifySubscribers()
      requires Valid()
      modifies this`log
      ensures Valid()
      ensures log == old(log) + Notifications(subscribers, state)
    {
      var i := 0;
      while i < |subscribers|
        invariant 0 <= i <= |subscribers|
        invariant log == old(log) + Notifications(subscribers[..i], state)
      {
        NotificationsSnoc(subscribers[..i], subscribers[i], state);
        assert subscribers[..i + 1] == subscribers[..i] + [subscribers[i]];
        log := log + [Notification(subscribers[i], state)];
        i := i + 1;
      }
      assert subscribers[..i] == subscribers;
    }

    /** Calling `mutations[name](payload)`: every action, for a method or a
        service alike, dispatches its name; a name without an action is a TypeError. */
    method Call(name: string, payload: JsValue) returns (c: Completion)
      requires Valid()
      modifies this`methods, this`state, this`log
      ensures Valid()
      ensures name !in mutations ==>
        c == Throw(NotAFunction(name)) && methods == old(methods) && state == old(state) && log == old(log)
      ensures name in mutations ==>
        methods == old(methods) + services && Dispatched(methods, old(state), old(log), name, payload, c)
    {
      if name !in mutations {
        return Throw(NotAFunction(name));
      }
      c := Dispatch(mutations[name].name, payload);
    }
  }

  /** A service that returns a promise, called through its action from a
      truthy state: the promise is not stored, the stored state stays, and
      the subscribers are still called with it. */
  method PromiseServiceScenario()
  {
    var promise := Obj(1, true, true);
    var fetch: Handler := (s: JsValue, p: JsValue) => promise;
    var store := new State(Obj(0, false, false), map[], map["fetch" := fetch]);
    var _ := store.Subscribe(3);
    var c := store.Call("fetch", Undefined);
    assert c == Normal(Undefined) && store.GetState() == Obj(0, false, false);
    assert store.log == [Notification(3, Obj(0, false, false))];
    assert "fetch" in store.methods;
  }

  /** The same service from the falsy state 0: the promise gives the old
      state back, `dispatch` finds it falsy and throws, and no subscriber is
      called. */
  method PromiseServiceFromFalsyState()
  {
    var promise := Obj(1, true, true);
    var fetch: Handler := (s: JsValue, p: JsValue) => promise;
    var store := new State(Num(0), map[], map["fetch" := fetch]);
    var _ := store.Subscribe(3);
    var c := store.Call("fetch", Undefined);
    assert c == Throw(Thrown(MissingReturnMessage)) && store.GetState() == Num(0);
    assert store.log == [];
  }
}
