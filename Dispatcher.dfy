/** The client side of the action-correlation protocol: a process-wide
    counter and a map of pending promise handlers (liveql-n4m.js). Emitting
    on the channel is an append to `outbox`; settling a promise is an
    append to `settled`. */
module Dispatcher {
  import opened Wrappers
  import opened Json
  import opened Protocol

  /** The `{resolve, reject}` pair registered for one promise; `promise`
      names the promise the pair settles. */
  datatype Handlers = Handlers(promise: int)

  datatype Outcome = Resolved(data: Option<Value>) | Rejected(reason: Option<Value>)

  /** One settlement: which promise, and how. */
  datatype Settlement = Settlement(promise: int, outcome: Outcome)

  /** How the result handler settles a matched promise: resolve with `data`
      when the status is exactly "succeeded", otherwise reject with `message`. */
  function Settle(r: ResultMsg): (o: Outcome)
    ensures o.Resolved? <==> r.status == "succeeded"
    ensures o.Resolved? ==> o.data == r.data
    ensures o.Rejected? ==> o.reason == r.message
  {
    if r.status != "succeeded" then Rejected(r.message) else Resolved(r.data)
  }

  /** The pending entry a result refers to, if any: Map.get on the result's
      actionId finds an entry only for a number that is a registered key. */
  function Lookup(handlers: map<int, Handlers>, actionId: Value): (h: Option<int>)
    ensures h.Some? <==> actionId.Num? && actionId.n in handlers
    ensures h.Some? ==> h.value == actionId.n
  {
    if actionId.Num? && actionId.n in handlers then Some(actionId.n) else None
  }

  class ActionDispatcher {
    var actionId: int
    var handlers: map<int, Handlers>
    var outbox: seq<Emitted>
    var settled: seq<Settlement>

    /** The ids of the promises settled so far. */
    ghost function SettledIds(): set<int>
      reads this
    {
      set i | 0 <= i < |settled| :: settled[i].promise
    }

    ghost predicate Valid()
      reads this
    {
      && actionId >= 0
      // every pending entry was issued by this dispatcher, under its own id
      && (forall id :: id in handlers ==> 1 <= id <= actionId && handlers[id].promise == id)
      // every emitted message carries an issued id, and ids strictly increase
      && (forall i :: 0 <= i < |outbox| ==> 1 <= outbox[i].message.actionId <= actionId)
      && (forall i, j :: 0 <= i < j < |outbox| ==> outbox[i].message.actionId < outbox[j].message.actionId)
      // the handler of every emitted message is pending or has already settled
      && (forall i :: 0 <= i < |outbox| ==>
            outbox[i].message.actionId in handlers || outbox[i].message.actionId in SettledIds())
      // each promise is settled at most once and is no longer pending after
      && (forall i :: 0 <= i < |settled| ==>
            1 <= settled[i].promise <= actionId && settled[i].promise !in handlers)
      && (forall i, j :: 0 <= i < j < |settled| ==> settled[i].promise != settled[j].promise)
    }

    constructor ()
      ensures Valid()
      ensures actionId == 0 && handlers == map[] && outbox == [] && settled == []
    {
      actionId := 0;
      handlers := map[];
      outbox := [];
      settled := [];
    }

    /** exec: raise the counter, register the handlers under the new id, then
        emit the message tagged with its action kind. */
    method Exec(params: Params) returns (id: int)
      requires Valid()
      modifies this
      ensures Valid()
      ensures id == old(actionId) + 1 && actionId == id
      ensures id !in old(handlers) && id !in old(SettledIds())
      ensures forall i :: 0 <= i < |old(outbox)| ==> old(outbox)[i].message.actionId < id
      ensures handlers == old(handlers)[id := Handlers(id)]
      ensures outbox == old(outbox) + [Emitted(Kind(params), Message(id, params))]
      ensures settled == old(settled)
    {
      actionId := actionId + 1;
      id := actionId;
      handlers := handlers[id := Handlers(id)];
      // the handlers are registered before the message leaves
      assert id in handlers;
      outbox := outbox + [Emitted(Kind(params), Message(id, params))];
    }

    /** The client's get: a get action with four optional key lists. */
    method Get(idOrPath: Value, propertyKeysSingle: Option<seq<string>>,
               propertyKeysMultiple: Option<seq<string>>,
               childKeysSingle: Option<seq<string>>,
               childKeysMultiple: Option<seq<string>>) returns (id: int)
      requires Valid()
      modifies this
      ensures Valid()
      ensures id == old(actionId) + 1 && actionId == id
      ensures handlers == old(handlers)[id := Handlers(id)]
      ensures outbox == old(outbox) + [Emitted("get", Message(id,
        GetParams(idOrPath, propertyKeysSingle, propertyKeysMultiple, childKeysSingle, childKeysMultiple)))]
      ensures settled == old(settled)
    {
      id := Exec(GetParams(idOrPath, propertyKeysSingle, propertyKeysMultiple, childKeysSingle, childKeysMultiple));
    }

    /** The client's set: write one property of one object. */
    method Set(target: Value, property: string, value: Value) returns (id: int)
      requires Valid()
      modifies this
      ensures Valid()
      ensures id == old(actionId) + 1 && actionId == id
      ensures handlers == old(handlers)[id := Handlers(id)]
      ensures outbox == old(outbox) + [Emitted("set", Message(id, SetParams(target, property, value)))]
      ensures settled == old(settled)
    {
      id := Exec(SetParams(target, property, value));
    }

    /** The client's call: invoke a method, the name being the first argument. */
    method Call(target: Value, args: seq<Value>) returns (id: int)
      requires Valid()
      modifies this
      ensures Valid()
      ensures id == old(actionId) + 1 && actionId == id
      ensures handlers == old(handlers)[id := Handlers(id)]
      ensures outbox == old(outbox) + [Emitted("call", Message(id, CallParams(target, args)))]
      ensures settled == old(settled)
    {
      id := Exec(CallParams(target, args));
    }

    /** The `result` handler: look the id up, delete its entry, then resolve
        or reject it. A result with no pending entry fails at the lookup and
        changes nothing. */
    method HandleResult(r: ResultMsg) returns (matched: bool)
      requires Valid()
      modifies this
      ensures Valid()
      ensures matched <==> r.actionId.Num? && r.actionId.n in old(handlers)
      ensures actionId == old(actionId) && outbox == old(outbox)
      ensures !matched ==> handlers == old(handlers) && settled == old(settled)
      ensures matched ==>
        && handlers == old(handlers) - {r.actionId.n}
        && settled == old(settled) + [Settlement(r.actionId.n, Settle(r))]
    {
      var entry := Lookup(handlers, r.actionId);
      if entry.None? {
        // destructuring the missing entry throws before the delete
        return false;
      }
      var id := entry.value;
      var h := handlers[id];
      handlers := handlers - {id};
      ghost var before := settled;
      settled := settled + [Settlement(h.promise, Settle(r))];
      matched := true;
      assert settled[|before|].promise == id;
      assert forall i :: 0 <= i < |before| ==> settled[i] == before[i];
    }
  }

  /** Dispatching the same action twice gives two different ids, the second
      larger, and both stay pending until their results arrive. */
  method DispatchTwice(d: ActionDispatcher, params: Params) returns (first: int, second: int)
    requires d.Valid()
    modifies d
    ensures d.Valid()
    ensures first < second && first != second
    ensures first in d.handlers && second in d.handlers
  {
    first := d.Exec(params);
    second := d.Exec(params);
  }

  /** Settling one action leaves every other pending entry as it was, and a
      second result for the same id settles nothing. */
  method SettleOnce(d: ActionDispatcher, r: ResultMsg) returns (firstMatched: bool, secondMatched: bool)
    requires d.Valid()
    modifies d
    ensures d.Valid()
    ensures forall id :: id in old(d.handlers) && Num(id) != r.actionId ==>
      id in d.handlers && d.handlers[id] == old(d.handlers)[id]
    ensures !secondMatched
    ensures |d.settled| <= |old(d.settled)| + 1
  {
    firstMatched := d.HandleResult(r);
    secondMatched := d.HandleResult(r);
  }
}
