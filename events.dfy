/** The client plugin of plugins/events.client.ts: a registry of `asset_ready` listeners fed by a
    server-sent event stream that reconnects after every error.

    Listener functions are compared by reference, as `indexOf` compares them; a `Listener` is
    that reference. Whether a listener throws when called with a payload is a parameter. */
module Events {
  import opened Js

  /** A listener function, identified by reference. */
  datatype Listener = Listener(ref: nat)

  /** `evt.data`: a string is JSON-parsed, anything else is passed on as it is. */
  datatype Payload = Text(text: string) | Other(value: Value)

  /** `typeof data === 'string' ? JSON.parse(data) : data`; `None` when parsing throws. */
  function Decode(payload: Payload, json: Json): (r: Option<Value>)
    ensures payload.Other? ==> r == Some(payload.value)
    ensures payload.Text? ==> r == json.parse(payload.text)
  {
    match payload
    case Text(t) => json.parse(t)
    case Other(v) => Some(v)
  }

  /** A JSON text sent by the server reaches the listeners as the value it encodes. */
  lemma DecodeStringified(v: Value, json: Json)
    requires Faithful(json) && !v.Undefined?
    ensures Decode(Text(json.stringify(v)), json) == Some(JsonNormal(v))
  {
  }

  /** `listeners.indexOf(fn)`: the first position holding `fn`, or -1. */
  function IndexOf(ls: seq<Listener>, fn: Listener): (i: int)
    ensures -1 <= i < |ls|
    ensures i == -1 <==> fn !in ls
    ensures i >= 0 ==> ls[i] == fn && fn !in ls[..i]
  {
    if ls == [] then -1
    else if ls[0] == fn then 0
    else
      var j := IndexOf(ls[1..], fn);
      if j == -1 then -1
      else
        assert ls[1..][..j] == ls[1..j + 1];
        j + 1
  }

  /** The unregister closure: `const i = indexOf(fn); if (i >= 0) splice(i, 1)`. */
  function RemoveFirst(ls: seq<Listener>, fn: Listener): (r: seq<Listener>)
    ensures fn !in ls ==> r == ls
    ensures fn in ls ==> exists i :: 0 <= i < |ls| && ls[i] == fn && fn !in ls[..i] && r == ls[..i] + ls[i + 1..]
    ensures multiset(r) == multiset(ls) - multiset{fn}
  {
    var i := IndexOf(ls, fn);
    if i < 0 then ls
    else
      assert ls == ls[..i] + [ls[i]] + ls[i + 1..];
      ls[..i] + ls[i + 1..]
  }

  /** A listener registered once is gone after unregistering, and unregistering it again
      changes nothing. */
  lemma UnregisterTwiceIsOnce(ls: seq<Listener>, fn: Listener)
    requires multiset(ls)[fn] == 1
    ensures fn !in RemoveFirst(ls, fn)
    ensures RemoveFirst(RemoveFirst(ls, fn), fn) == RemoveFirst(ls, fn)
  {
    var r := RemoveFirst(ls, fn);
    assert multiset(r)[fn] == 0;
    assert fn !in multiset(r);
  }

  /** Each entry of a function registered several times needs its own unregister call. */
  lemma UnregisterRemovesOneEntry(ls: seq<Listener>, fn: Listener)
    ensures multiset(RemoveFirst(ls, fn))[fn] == if fn in ls then multiset(ls)[fn] - 1 else 0
  {
    if fn !in ls {
      assert fn !in multiset(ls);
    }
  }

  /** The calls one dispatch makes: listeners in order, up to and including the first one that
      throws; the exception ends the `forEach` and is swallowed. */
  function Delivered(ls: seq<Listener>, data: Value, throws: (Listener, Value) -> bool): (calls: seq<Listener>)
    ensures |calls| <= |ls| && calls == ls[..|calls|]
    ensures forall k :: 0 <= k < |calls| - 1 ==> !throws(calls[k], data)
    ensures |calls| < |ls| ==> |calls| > 0 && throws(calls[|calls| - 1], data)
  {
    if ls == [] then []
    else if throws(ls[0], data) then [ls[0]]
    else [ls[0]] + Delivered(ls[1..], data, throws)
  }

  /** When no listener throws, every entry is called once, in registration order. */
  lemma {:induction false} DeliveredToAll(ls: seq<Listener>, data: Value, throws: (Listener, Value) -> bool)
    requires forall k :: 0 <= k < |ls| ==> !throws(ls[k], data)
    ensures Delivered(ls, data, throws) == ls
  {
    if ls != [] {
      DeliveredToAll(ls[1..], data, throws);
    }
  }

  /** When entry `k` is the first to throw, the entries before it and it alone have been called. */
  lemma {:induction false} DeliveredStopsAtThrower(ls: seq<Listener>, data: Value, throws: (Listener, Value) -> bool, k: nat)
    requires k < |ls| && throws(ls[k], data)
    requires forall j :: 0 <= j < k ==> !throws(ls[j], data)
    ensures Delivered(ls, data, throws) == ls[..k + 1]
  {
    if k > 0 {
      DeliveredStopsAtThrower(ls[1..], data, throws, k - 1);
      assert ls[..k + 1] == [ls[0]] + ls[1..][..k];
    }
  }

  /** A function registered twice is called twice by a dispatch in which nobody throws. */
  lemma RegisteredTwiceCalledTwice(ls: seq<Listener>, fn: Listener, data: Value, throws: (Listener, Value) -> bool)
    requires forall k :: 0 <= k < |ls| ==> !throws(ls[k], data)
    requires !throws(fn, data)
    ensures multiset(Delivered(ls + [fn] + [fn], data, throws))[fn] == multiset(ls)[fn] + 2
  {
    DeliveredToAll(ls + [fn] + [fn], data, throws);
  }

  /** The registry and the connection that feeds it. */
  class EventChannel {
    var listeners: seq<Listener>
    /** The current EventSource is open; after an error it is closed until the reconnect. */
    var open: bool
    /** The `setTimeout(connect, 3000)` scheduled after an error is pending. */
    var reconnectPending: bool
    /** How many times `connect` has run. */
    var connections: nat

    ghost predicate Valid()
      reads this
    {
      open != reconnectPending && connections >= 1
    }

    /** The plugin on the client: an empty registry and the first connection. */
    constructor()
      ensures Valid()
      ensures listeners == [] && open && !reconnectPending && connections == 1
    {
      listeners := [];
      open := true;
      reconnectPending := false;
      connections := 1;
    }

    /** `onAssetReady(fn)`: appends `fn`. */
    method AddListener(fn: Listener)
      modifies this
      ensures listeners == old(listeners) + [fn]
      ensures open == old(open) && reconnectPending == old(reconnectPending) && connections == old(connections)
    {
      listeners := listeners + [fn];
    }

    /** The unregister function returned for `fn`. */
    method Unregister(fn: Listener)
      modifies this
      ensures listeners == RemoveFirst(old(listeners), fn)
      ensures open == old(open) && reconnectPending == old(reconnectPending) && connections == old(connections)
    {
      var i := IndexOf(listeners, fn);
      if i >= 0 {
        listeners := listeners[..i] + listeners[i + 1..];
      }
    }

    /** An `asset_ready` event: decodes the payload and calls the listeners in order, returning
        the calls made. Nothing in the channel changes. Events arrive only on an open stream. */
    method DispatchAssetReady(payload: Payload, json: Json, throws: (Listener, Value) -> bool)
      returns (calls: seq<Listener>)
      requires Valid() && open
      ensures Decode(payload, json).None? ==> calls == []
      ensures Decode(payload, json).Some? ==> calls == Delivered(listeners, Decode(payload, json).value, throws)
    {
      calls := [];
      var decoded := Decode(payload, json);
      if decoded.None? {
        return;
      }
      var data := decoded.value;
      var i := 0;
      while i < |listeners|
        invariant 0 <= i <= |listeners|
        invariant calls == listeners[..i]
        invariant forall k :: 0 <= k < i ==> !throws(listeners[k], data)
      {
        var fn := listeners[i];
        calls := calls + [fn];
        if throws(fn, data) {
          DeliveredStopsAtThrower(listeners, data, throws, i);
          return;
        }
        i := i + 1;
      }
      DeliveredToAll(listeners, data, throws);
    }

    /** `es.onerror`: closes the stream and schedules a reconnect. */
    method OnError()
      requires Valid() && open
      modifies this
      ensures Valid()
      ensures !open && reconnectPending
      ensures listeners == old(listeners) && connections == old(connections)
    {
      open := false;
      reconnectPending := true;
    }

    /** The reconnect timer fires and `connect` opens a new stream. */
    method ReconnectFired()
      requires Valid() && reconnectPending
      modifies this
      ensures Valid()
      ensures open && !reconnectPending
      ensures listeners == old(listeners) && connections == old(connections) + 1
    {
      open := true;
      reconnectPending := false;
      connections := connections + 1;
    }
  }
}
