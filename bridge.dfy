/** The message bridge to the editor frame
    (apps/ai-calc-assistant/src/agent/bridge.ts): each request gets a fresh id
    and waits in `pending` until a reply from the allowed origin names that id,
    its timer fires, or the bridge is disposed. Posting is recorded in
    `outbox`, and every promise that settles is recorded in `settled`. */
module Bridge {
  import opened Js
  import opened Tools

  /** What a pending entry is waiting for; it decides the timeout's message. */
  datatype Waiting = UnoCall | RequestCall(messageType: string)

  /** The message handed to `postMessage`: a UNO command, or a request whose
      fields are `{MessageId, id, ...payload}`. */
  datatype Message = UnoMessage(id: string, command: string, arguments: seq<UnoArg>) | RequestMessage(fields: map<string, JsValue>)

  /** A `postMessage(message, targetOrigin)` call. */
  datatype Posted = Posted(message: Message, targetOrigin: string)

  /** A promise that settled: the id it waited under, and how it settled. */
  datatype Settlement = Settled(id: string, reply: Reply)

  const UnoTimeout := "UNO command timeout"

  /** The error a fired timer rejects with. */
  function TimeoutError(w: Waiting): Thrown {
    ErrorObject("Error", if w.UnoCall? then UnoTimeout else w.messageType + " request timeout")
  }

  /** `{ MessageId: messageType, id, ...payload }`: keys of `payload` win. */
  function RequestFields(messageType: string, id: string, payload: map<string, JsValue>): (m: map<string, JsValue>)
    ensures forall key :: key in payload ==> key in m && m[key] == payload[key]
    ensures "MessageId" !in payload ==> "MessageId" in m && m["MessageId"] == Str(messageType)
    ensures "id" !in payload ==> "id" in m && m["id"] == Str(id)
    ensures m.Keys == payload.Keys + {"MessageId", "id"}
  {
    map["MessageId" := Str(messageType), "id" := Str(id)] + payload
  }

  /** The pending id an inbound message settles, if any: it must come from
      the allowed origin, carry an object, have a truthy `id`, and
      `String(id)` must be pending. */
  function Addressee(allowedOrigin: string, pending: map<string, Waiting>, origin: string, data: JsValue): (r: Option<string>)
    ensures r.Some? ==> r.value in pending && origin == allowedOrigin && data.Object?
    ensures r.Some? <==> origin == allowedOrigin && data.Object? && Truthy(Field(data.fields, "id"))
                         && ToJsString(Field(data.fields, "id")) in pending
  {
    if origin != allowedOrigin then None
    else if !data.Object? then None
    else
      var id := Field(data.fields, "id");
      if !Truthy(id) then None
      else if ToJsString(id) !in pending then None
      else Some(ToJsString(id))
  }

  /** How a matching reply settles its promise: rejected with
      `Error(String(error))` when `error` is truthy, otherwise resolved with
      `{ success: true, data: result }`. */
  function ReplyOf(data: JsValue): (r: Reply)
    ensures data.Object? && Truthy(Field(data.fields, "error")) ==>
      r == Rejected(ErrorObject("Error", ToJsString(Field(data.fields, "error"))))
    ensures data.Object? && !Truthy(Field(data.fields, "error")) ==> r == Resolved(Field(data.fields, "result"))
  {
    var fields := if data.Object? then data.fields else map[];
    var error := Field(fields, "error");
    if Truthy(error) then Rejected(ErrorObject("Error", ToJsString(error))) else Resolved(Field(fields, "result"))
  }

  /** `UNOBridge`. `listening` is whether `onMessage` is still registered;
      `issued` holds every id handed out so far. */
  class UnoBridge {
    const allowedOrigin: string
    var listening: bool
    var pending: map<string, Waiting>
    var outbox: seq<Posted>
    var settled: seq<Settlement>
    ghost var issued: set<string>

    /** Every pending id was issued; every settled id was issued and is no
        longer pending; no id settles twice. */
    ghost predicate Valid()
      reads this
    {
      && pending.Keys <= issued
      && (forall i :: 0 <= i < |settled| ==> settled[i].id in issued && settled[i].id !in pending)
      && (forall i, j :: 0 <= i < j < |settled| ==> settled[i].id != settled[j].id)
    }

    constructor (allowedOrigin: string)
      ensures this.allowedOrigin == allowedOrigin && listening
      ensures pending == map[] && outbox == [] && settled == [] && issued == {}
      ensures Valid()
    {
      this.allowedOrigin := allowedOrigin;
      listening := true;
      pending, outbox, settled := map[], [], [];
      issued := {};
    }

    /** `dispose()`: unregisters the listener and cancels every timer;
        nothing settles. */
    method Dispose()
      requires Valid()
      modifies this
      ensures Valid()
      ensures !listening && pending == map[]
      ensures outbox == old(outbox) && settled == old(settled) && issued == old(issued)
    {
      listening := false;
      pending := map[];
    }

    /** `uno(command, args)` under the fresh id `id`; `windowReady` is whether
        the frame has a `contentWindow`, without which nothing is posted. */
    method Uno(command: string, args: seq<UnoArg>, id: string, windowReady: bool)
      requires Valid() && id !in issued
      modifies this
      ensures Valid()
      ensures id !in old(pending) && pending == old(pending)[id := UnoCall]
      ensures outbox == old(outbox) + if windowReady then [Posted(UnoMessage(id, command, args), allowedOrigin)] else []
      ensures settled == old(settled) && issued == old(issued) + {id} && listening == old(listening)
    {
      pending := pending[id := UnoCall];
      issued := issued + {id};
      if windowReady {
        outbox := outbox + [Posted(UnoMessage(id, command, args), allowedOrigin)];
      }
    }

    /** `request(messageType, payload)` under the fresh id `id`. */
    method Request(messageType: string, payload: map<string, JsValue>, id: string, windowReady: bool)
      requires Valid() && id !in issued
      modifies this
      ensures Valid()
      ensures id !in old(pending) && pending == old(pending)[id := RequestCall(messageType)]
      ensures outbox == old(outbox) + if windowReady then [Posted(RequestMessage(RequestFields(messageType, id, payload)), allowedOrigin)] else []
      ensures settled == old(settled) && issued == old(issued) + {id} && listening == old(listening)
    {
      pending := pending[id := RequestCall(messageType)];
      issued := issued + {id};
      if windowReady {
        outbox := outbox + [Posted(RequestMessage(RequestFields(messageType, id, payload)), allowedOrigin)];
      }
    }

    /** The timer of `id` fires: a pending entry is deleted and rejected with
        its timeout message. A timer that was cleared never fires, which is
        the case exactly when `id` is no longer pending. */
    method Timeout(id: string)
      requires Valid()
      modifies this
      ensures Valid()
      ensures id in old(pending) ==>
        pending == old(pending) - {id} && settled == old(settled) + [Settled(id, Rejected(TimeoutError(old(pending)[id])))]
      ensures id !in old(pending) ==> pending == old(pending) && settled == old(settled)
      ensures outbox == old(outbox) && issued == old(issued) && listening == old(listening)
    {
      if id in pending {
        var w := pending[id];
        pending := pending - {id};
        settled := settled + [Settled(id, Rejected(TimeoutError(w)))];
      }
    }

    /** A `message` event reaches `onMessage` while it is registered. A
        message that names a pending id from the allowed origin deletes that
        entry and settles its promise; any other message changes nothing. */
    method OnMessage(origin: string, data: JsValue)
      requires Valid()
      modifies this
      ensures Valid()
      ensures var key := if old(listening) then Addressee(allowedOrigin, old(pending), origin, data) else None;
        if key.Some? then
          pending == old(pending) - {key.value} && settled == old(settled) + [Settled(key.value, ReplyOf(data))]
        else pending == old(pending) && settled == old(settled)
      ensures outbox == old(outbox) && issued == old(issued) && listening == old(listening)
    {
      if !listening {
        return;
      }
      if origin != allowedOrigin {
        return;
      }
      if !data.Object? {
        return;
      }
      var idValue := Field(data.fields, "id");
      if !Truthy(idValue) {
        return;
      }
      var id := ToJsString(idValue);
      if id !in pending {
        return;
      }
      pending := pending - {id};
      var error := Field(data.fields, "error");
      if Truthy(error) {
        settled := settled + [Settled(id, Rejected(ErrorObject("Error", ToJsString(error))))];
      } else {
        settled := settled + [Settled(id, Resolved(Field(data.fields, "result")))];
      }
    }
  }
}
