# infinity-state: a verified model of the `State` container

The library is a small observable state container. A `State` object is
built from a context `{ state, methods, services }`. It keeps the current
state, an ordered list of subscriber callbacks and a generated `mutations`
map that holds one action per registered name. Calling a method's action
dispatches it. The method's result is checked: a falsy result throws, an
object result becomes the new state, and any other result is dropped. After
that, every subscriber is called with the stored state.

The repository holds two drafts of the class, `src/lib/state.ts` and
`src/lib/State.ts`. Their file names differ only in case, and they behave
differently, so they are modelled as two modules:

- `LowerState` (`state.ts`). A service name gets an action that calls the
  service directly with the current state. That call neither stores anything
  nor notifies anyone. On a shared name the service's action replaces the
  method's.
- `UpperState` (`State.ts`). Every name, service names included, gets an
  action that dispatches. Each `reduce` merges the services into the
  context's methods object in place (`Object.assign`). A handler result that
  has a `then` or `catch` function (a promise) gives the old state back.
  Reading `then` of an `undefined` or `null` result is a TypeError.

Three modules are shared by both drafts:

- `Js` models JavaScript values: truthiness, `typeof`, property reads, and
  how a call completes (`Normal(value)` or `Throw(error)`).
- `StateCommon` holds the subscriber list, its filtering, the record of
  notifications, and the check after `reduce`.
- `Validations` models `src/lib/validations.ts`.

Each class is modelled as a Dafny `class` whose fields the methods reassign.
Those fields are the state, the subscriber list (a `seq`), the action map
(a `map`) and, in `UpperState`, the methods object. Subscribers are opaque
identities, compared the way `!==` compares references. Every subscriber
call is recorded in the ghost field `log` as a `Notification(subscriber,
state)`. The closure returned by `subscribe` is an `Unsubscriber` value that
holds the container that issued it and the captured subscriber. Calling the
closure is the `Unsubscribe` method of that same container. The creators
run while `this.mutations` is still undefined, and
`Object.assign({}, undefined)` copies nothing. So the field starts as the
empty map before the creators read it.

Behaviours of the code that are easy to miss:

- In both drafts only results with `typeof === 'object'` are stored. With a
  numeric state, a method returning a number leaves the state unchanged and
  still calls the subscribers with it. `LowerState.ExampleScript` replays
  `src/lib/exemple.ts`: `add(1)` and `remove(2)` leave the state at 0, and
  `not()` then throws 'Reducer functions must return a value', because the 0
  it returns is falsy.
- A dispatch with an empty type still runs the falsy check on the *current*
  state. A falsy current state (such as `0`) therefore makes it throw.
- In `State.ts` the merge on line 112 comes before the type test. It
  happens on every dispatch: with an empty type, and also when the dispatch
  then throws.
- An unknown name is not a no-op. The lookup yields `undefined`, and calling
  it is a TypeError (`NotAFunction`).
- In `State.ts` a service returning a promise leaves the state as it was,
  and the subscribers are still called, provided the current state is
  truthy. `UpperState.PromiseServiceScenario` shows this through the
  action. With a falsy state such as 0 the dispatch throws 'Reducer and
  SideEffect functions must return a value' and no subscriber is called;
  `UpperState.PromiseServiceFromFalsyState` shows that case.

## Model

| member | source | states |
|---|---|---|
| `Js.Truthy` | src/lib/state.ts:134 | the falsy values are exactly undefined, null, false, 0 and '' |
| `Js.TypeOf` | src/lib/state.ts:136 | `typeof` is 'object' exactly for null and objects, and 'function' exactly for functions |
| `Js.Nullish` | src/lib/State.ts:123 | the values whose property read `newState.then` throws are exactly undefined and null |
| `Js.PropertyIsFunction` | src/lib/State.ts:123-124 | `typeof v.then` or `typeof v.catch` can be 'function' only for an object, and only for those two properties |
| `StateCommon.Settle` | src/lib/state.ts:134-138 | it throws with the given message iff the reducer's result is falsy; otherwise the next state is the result when that is a non-null object, and the current state when it is not |
| `StateCommon.Notifications` | src/lib/state.ts:140-142 | `forEach` makes one call per list entry, at the entry's position, each with the same state |
| `StateCommon.NotificationsSnoc` | src/lib/State.ts:105-107 | notifying one more subscriber appends exactly one call at the end |
| `StateCommon.Without` | src/lib/state.ts:127 | the filtered list has no entry identical to `fn`, and it keeps every other entry as many times as before |
| `StateCommon.WithoutAppend` | src/lib/state.ts:127 | filtering distributes over concatenation, so the remaining entries keep their order |
| `StateCommon.WithoutAbsent` | src/lib/State.ts:92 | unsubscribing a callback that is not subscribed leaves the list as it is |
| `StateCommon.WithoutIdempotent` | src/lib/state.ts:126-128 | calling an unsubscriber twice has the effect of calling it once |
| `StateCommon.SubscribeThenUnsubscribe` | src/lib/state.ts:123-128 | subscribing `fn` and then unsubscribing it restores every other subscriber in order |
| `StateCommon.UnsubscribeKeepsLater` | src/lib/State.ts:89-93 | unsubscribing `fn` keeps a different subscriber that joined later at the end |
| `LowerState.State.constructor` | src/lib/state.ts:85-98 | the getter returns the initial state; there are no subscribers; the actions cover exactly the method and service names; a service name gets a service action, and a name that is only a method's gets a dispatching action |
| `LowerState.State.GetState` | src/lib/state.ts:96-98 | the getter returns the stored state |
| `LowerState.State.MutationCreator` | src/lib/state.ts:100-106 | the copy of the action map gains a dispatching action for every method name and keeps every other entry |
| `LowerState.State.EffectsCreator` | src/lib/state.ts:108-115 | the copy of the action map gains a service action for every service name and keeps every other entry |
| `LowerState.State.Subscribe` | src/lib/state.ts:123-125 | `fn` goes at the end of a new list and the earlier subscribers keep their order; the unsubscriber captures this container and `fn` |
| `LowerState.State.Unsubscribe` | src/lib/state.ts:126-128 | the unsubscriber acts on the container that issued it; that container's new list is its current one without any entry identical to the captured `fn` |
| `LowerState.State.Reduce` | src/lib/state.ts:145-159 | an empty type gives the input state back; any other type gives the named method's result for `(state, payload)`, or a TypeError when no method has that name |
| `LowerState.State.Transition` | src/lib/state.ts:131-138 | the stored state either stays or becomes an object; a method result is stored iff it is an object; it throws 'Reducer functions must return a value' iff that result is falsy; with an empty type it throws that message iff the current state is falsy; a non-empty name without a method throws a TypeError |
| `LowerState.State.Dispatch` | src/lib/state.ts:131-143 | on a throw the state and the log are unchanged; otherwise the state is the transition's, and every subscriber is called once, in order, with it |
| `LowerState.State.NotifySubscribers` | src/lib/state.ts:140-142 | the log gains one call per subscriber, in list order, with the stored state |
| `LowerState.State.Call` | src/lib/state.ts:102-112 | a method action dispatches its name; a service action returns the service's value for the current state and payload, and changes neither the state nor the log; a name without an action is a TypeError |
| `UpperState.Thenable` | src/lib/State.ts:122-125 | a value counts as promise-like iff it is an object whose `then` or `catch` is a function |
| `UpperState.Reduction` | src/lib/State.ts:113-131 | an empty type gives the state back; a missing handler is a TypeError; an undefined or null result fails when `then` is read; a promise-like result gives the old state; any other result is returned as it is |
| `UpperState.Transition` | src/lib/State.ts:96-103 | the stored state either stays or becomes an object; an undefined or null result fails on the property read; every other throw, for a named handler or an empty type, is 'Reducer and SideEffect functions must return a value'; a promise-like result keeps the state and throws exactly when the current state is falsy; any other result throws iff it is falsy, is stored when it is an object and is dropped when it is a truthy primitive; with an empty type it throws iff the current state is falsy; a non-empty name without a handler throws a TypeError |
| `UpperState.MergeIdempotent` | src/lib/State.ts:112 | merging the services again after the first merge changes nothing, which is why a later dispatch leaves the merged methods object as it is |
| `UpperState.ServiceWinsClash` | src/lib/State.ts:112-115 | on a name that is both a method and a service, dispatch behaves exactly as with the service alone |
| `UpperState.State.constructor` | src/lib/State.ts:62-72 | the getter returns the initial state; there are no subscribers; the methods object is the one given, not yet merged; the actions cover exactly the method and service names, each dispatching its own name |
| `UpperState.State.GetState` | src/lib/State.ts:70-72 | the getter returns the stored state |
| `UpperState.State.ActionCreator` | src/lib/State.ts:74-80 | the copy of the action map gains a dispatching action for every method or service name and keeps every other entry |
| `UpperState.State.Subscribe` | src/lib/State.ts:87-90 | `fn` goes at the end of a new list and the earlier subscribers keep their order; the unsubscriber captures this container and `fn` |
| `UpperState.State.Unsubscribe` | src/lib/State.ts:91-93 | the unsubscriber acts on the container that issued it; that container's new list is its current one without any entry identical to the captured `fn` |
| `UpperState.State.Reduce` | src/lib/State.ts:110-132 | the methods object becomes the methods merged with the services, in place, whatever the outcome; the result is the reduction over that merged object |
| `UpperState.State.Dispatch` | src/lib/State.ts:96-108 | the merge persists even when the dispatch throws; once the methods object is merged, a further dispatch leaves it unchanged; on a throw the state and the log are unchanged; otherwise the state is the transition's, and every subscriber is called once, in order, with it |
| `UpperState.State.NotifySubscribers` | src/lib/State.ts:105-107 | the log gains one call per subscriber, in list order, with the stored state |
| `UpperState.State.Call` | src/lib/State.ts:77 | every action, for a method or a service alike, dispatches its own name; a name without an action is a TypeError that changes nothing |
| `Validations.NewError` | src/lib/validations.ts:1-6 | it never returns normally; a non-empty message is thrown as 'Parameter just a string', and the empty message is thrown as given |
| `Validations.ValidationMessage` | src/lib/validations.ts:13 | the template message is never empty, as it is longer than the parameter name |
| `Validations.FunctionsValidation` | src/lib/validations.ts:11-15 | it throws iff the argument is not a function; a function passes and returns undefined; every error carries 'Parameter just a string' |
| `Validations.ObjectValidation` | src/lib/validations.ts:20-24 | it throws iff the argument is not a non-null object, so null is rejected; an object passes; every error carries 'Parameter just a string' |

## Left out

- Services run asynchronously: the model leaves out promise resolution and
  the follow-up actions a service's continuation makes. A service is a
  function returning a value, and only the synchronous effect of calling it
  is modelled.
- Re-entrancy is left out. Subscribers and handlers are opaque: a
  subscriber that dispatches, subscribes or unsubscribes while being
  notified is not modelled, and neither is a handler or subscriber that
  throws. `subscribe` and unsubscribe replace the list rather than mutate
  it, so the list `forEach` walks is a stable snapshot.
- The model leaves out handlers that mutate the state object in place, and
  aliasing between the stored state or context and objects the caller
  still holds. Objects are compared by identity only.
- Numbers are unbounded integers. NaN, -0, fractions, BigInt and Symbol
  values are not modelled; a falsy NaN would behave like 0.
- The prototype chain is left out: inherited enumerable keys in `for...in`,
  and names inherited from `Object.prototype` (such as `toString`) that a
  `methods[type]` lookup would find. Key order in the generated action map
  is left out too; the map is unordered.
- A non-function registered under `methods` or `services` is not modelled:
  handlers are total functions. Calling a name with no handler is modelled
  as a TypeError, without the engine's wording.
- Writes by clients to the public `mutations` and `context` fields are not
  modelled. Only the class's own methods change them.
- The TypeScript type-level definitions (`GetParams`, `TMutation`,
  `Mutations`, the conditional types) are not modelled, since they have no
  run-time behaviour.
- `src/lib/hooks.ts` (React bindings over `subscribe`) and the tests are
  not part of this model. The usage script `src/lib/exemple.ts` appears
  only as the scenario `LowerState.ExampleScript`.
