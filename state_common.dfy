/**
  What the two drafts of the `State` class share: the subscriber list and
  its filtering, the record of notifications, and the check a dispatch runs
  on the value its reducer returned.
 */
module StateCommon {
  import opened Js

  /** A subscriber callback, known only by its identity (the drafts compare
      subscribers with `!==`). */
  type SubId = nat

  /** One call `fn(state)` of a subscriber. */
  datatype Notification = Notification(subscriber: SubId, state: JsValue)

  /** The calls `subscribers.forEach(fn => fn(state))` makes: every entry of
      the list, once, in list order, with the same state. */
  function Notifications(subscribers: seq<SubId>, state: JsValue): (calls: seq<Notification>)
    ensures |calls| == |subscribers|
    ensures forall i :: 0 <= i < |subscribers| ==> calls[i] == Notification(subscribers[i], state)
  {
    if subscribers == [] then []
    else [Notification(subscribers[0], state)] + Notifications(subscribers[1..], state)
  }

  /** Notifying one more subscriber appends one call at the end. */
  lemma NotificationsSnoc(subscribers: seq<SubId>, fn: SubId, state: JsValue)
    ensures Notifications(subscribers + [fn], state) == Notifications(subscribers, state) + [Notification(fn, state)]
  {
  }

  /** `subscribers.filter(sub => sub !== fn)`: a new list without any entry
      identical to `fn`, every other entry kept as many times as before. */
  function Without(subscribers: seq<SubId>, fn: SubId): (kept: seq<SubId>)
    ensures fn !in kept
    ensures multiset(kept) == multiset(subscribers)[fn := 0]
  {
    if subscribers == [] then []
    else
      assert subscribers == [subscribers[0]] + subscribers[1..];
      if subscribers[0] == fn then Without(subscribers[1..], fn)
      else [subscribers[0]] + Without(subscribers[1..], fn)
  }

  /** Filtering distributes over concatenation, so the entries that remain
      keep their relative order. */
  lemma {:induction false} WithoutAppend(s: seq<SubId>, t: seq<SubId>, fn: SubId)
    ensures Without(s + t, fn) == Without(s, fn) + Without(t, fn)
  {
    if s == [] {
      assert s + t == t;
    } else {
      assert (s + t)[0] == s[0];
      assert (s + t)[1..] == s[1..] + t;
      WithoutAppend(s[1..], t, fn);
    }
  }

  /** Filtering out a subscriber that is not in the list changes nothing. */
  lemma {:induction false} WithoutAbsent(subscribers: seq<SubId>, fn: SubId)
    requires fn !in subscribers
    ensures Without(subscribers, fn) == subscribers
  {
    if subscribers != [] {
      WithoutAbsent(subscribers[1..], fn);
    }
  }

  /** Calling the same unsubscribe function twice has the effect of calling it once. */
  lemma WithoutIdempotent(subscribers: seq<SubId>, fn: SubId)
    ensures Without(Without(subscribers, fn), fn) == Without(subscribers, fn)
  {
  }

  /** Subscribing `fn` and unsubscribing it at once leaves every other
      subscriber where it was. */
  lemma SubscribeThenUnsubscribe(subscribers: seq<SubId>, fn: SubId)
    ensures Without(subscribers + [fn], fn) == Without(subscribers, fn)
  {
    WithoutAppend(subscribers, [fn], fn);
    assert Without([fn], fn) == [];
  }

  /** Unsubscribing `fn` after another subscriber `other` joined keeps `other`
      at the end. */
  lemma UnsubscribeKeepsLater(subscribers: seq<SubId>, other: SubId, fn: SubId)
    requires other != fn
    ensures Without(subscribers + [other], fn) == Without(subscribers, fn) + [other]
  {
    WithoutAppend(subscribers, [other], fn);
    assert Without([other], fn) == [other];
  }

  /** The check a dispatch runs on the reducer's result: a falsy result
      throws `message`; a non-null object becomes the stored state; any
      other truthy value is dropped and the current state stays. */
  function Settle(current: JsValue, reduced: JsValue, message: string): (next: Completion)
    ensures next.Throw? <==> !Truthy(reduced)
    ensures next.Throw? ==> next.error == Thrown(message)
    ensures next.Normal? ==> next.value == (if reduced.Obj? then reduced else current)
  {
    if !Truthy(reduced) then Throw(Thrown(message))
    else if TypeOf(reduced) == "object" then Normal(reduced)
    else Normal(current)
  }
}
