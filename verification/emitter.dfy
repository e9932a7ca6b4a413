/**
 The emitter: five operations, each of which builds one message, encodes it
 and hands `(channel, payload)` to the publish callback exactly once. The
 emitter keeps no state between calls, so a message depends only on the
 arguments of its own call.

 Broadcast events are encoded with MessagePack and go to the broadcast
 channel; the four administrative requests are encoded as JSON and go to the
 request channel. The encoders are not modelled byte by byte: a payload
 records which encoder was used and the PHP value it was given.
 */
module Emitter {
  import opened Wrappers
  import opened Values
  import opened RequestTypes
  import opened Channels

  /** The identifier the emitter signs its messages with. */
  const Uid: string := "emitter"

  /** The namespace an operation uses when none is given. */
  const DefaultNamespace: string := "/"

  /** The Socket.IO packet type of an event packet (`PacketType::Event`). */
  const EventPacketType: int := 2

  /** The optional payload of an event: nothing (`null`), a string or an array. */
  datatype EventData = NoData | Text(s: string) | Fields(entries: seq<(Key, Value)>)

  /** One call of a public operation of the emitter, with all its arguments and their defaults. */
  datatype Operation =
    | Emit(event: string, eventData: EventData := NoData, rooms: seq<string> := [],
           exceptRooms: seq<string> := [], namespace: string := DefaultNamespace,
           flags: seq<(Key, Value)> := [])
    | JoinRooms(roomsToJoin: seq<string>, rooms: seq<string> := [], exceptRooms: seq<string> := [],
                namespace: string := DefaultNamespace)
    | LeaveRooms(roomsToLeave: seq<string>, rooms: seq<string> := [], exceptRooms: seq<string> := [],
                 namespace: string := DefaultNamespace)
    | DisconnectSockets(rooms: seq<string> := [], exceptRooms: seq<string> := [],
                        namespace: string := DefaultNamespace)
    | EmitToServers(data: seq<(Key, Value)>, namespace: string := DefaultNamespace)

  /** An encoded payload: which encoder produced it, and from which value. */
  datatype Payload = Packed(tree: Value) | Json(tree: Value)

  /** One call of the publish callback. */
  datatype Publication = Publication(channel: string, payload: Payload)

  /** The calls of the publish callback so far, oldest first. */
  type Trace = seq<Publication>

  /** The failure `json_encode` raises as a `JsonException`. */
  datatype EncodeError = JsonEncodeError

  /** The PHP value of an event's data argument. */
  function DataValue(d: EventData): Value
  {
    match d
    case NoData => Null
    case Text(s) => Str(s)
    case Fields(e) => Arr(e)
  }

  /** The packet of a broadcast: `{type, data: [event, data], nsp}`. */
  function EventPacket(event: string, d: EventData, namespace: string): Value
  {
    Arr([Entry("type", Int(EventPacketType)),
         Entry("data", ListOf([Str(event), DataValue(d)])),
         Entry("nsp", Str(namespace))])
  }

  /** The options of a broadcast: `{flags, rooms, except}`. */
  function BroadcastOptions(flags: seq<(Key, Value)>, rooms: seq<string>, exceptRooms: seq<string>): Value
  {
    Arr([Entry("flags", Arr(flags)),
         Entry("rooms", StringList(rooms)),
         Entry("except", StringList(exceptRooms))])
  }

  /** The value `emit` packs: `["emitter", packet, options]`. */
  function BroadcastMessage(event: string, d: EventData, rooms: seq<string>, exceptRooms: seq<string>,
                            namespace: string, flags: seq<(Key, Value)>): Value
  {
    ListOf([Str(Uid), EventPacket(event, d, namespace), BroadcastOptions(flags, rooms, exceptRooms)])
  }

  /** The room selection of a request: `{rooms, except}`. */
  function RoomSelection(rooms: seq<string>, exceptRooms: seq<string>): Value
  {
    Arr([Entry("rooms", StringList(rooms)), Entry("except", StringList(exceptRooms))])
  }

  /** The request of `joinRooms` (`t` = RemoteJoin) or `leaveRooms` (`t` = RemoteLeave):
      `{type, opts: {rooms, except}, rooms: target}`. */
  function MembershipRequest(t: RequestType, target: seq<string>, rooms: seq<string>,
                             exceptRooms: seq<string>): Value
  {
    Arr([Entry("type", Int(Code(t))),
         Entry("opts", RoomSelection(rooms, exceptRooms)),
         Entry("rooms", StringList(target))])
  }

  /** The request of `disconnectSockets`: `{type, opts: {rooms, except}, close: true}`. */
  function DisconnectRequest(rooms: seq<string>, exceptRooms: seq<string>): Value
  {
    Arr([Entry("type", Int(Code(RemoteDisconnect))),
         Entry("opts", RoomSelection(rooms, exceptRooms)),
         Entry("close", Bool(true))])
  }

  /** The request of `emitToServers`: `{uid: "emitter", type, data}`. */
  function ServerEmitRequest(data: seq<(Key, Value)>): Value
  {
    Arr([Entry("uid", Str(Uid)), Entry("type", Int(Code(ServerEmit))), Entry("data", Arr(data))])
  }

  /** The one publication an operation makes when its encoding succeeds. */
  function Message(op: Operation): (p: Publication)
    ensures op.Emit? <==> p.payload.Packed?
    ensures op.Emit? ==> p.channel == BroadcastChannel(op.namespace)
    ensures !op.Emit? ==> p.channel == RequestChannel(op.namespace)
  {
    match op
    case Emit(event, d, rooms, exceptRooms, ns, flags) =>
      Publication(BroadcastChannel(ns), Packed(BroadcastMessage(event, d, rooms, exceptRooms, ns, flags)))
    case JoinRooms(target, rooms, exceptRooms, ns) =>
      Publication(RequestChannel(ns), Json(MembershipRequest(RemoteJoin, target, rooms, exceptRooms)))
    case LeaveRooms(target, rooms, exceptRooms, ns) =>
      Publication(RequestChannel(ns), Json(MembershipRequest(RemoteLeave, target, rooms, exceptRooms)))
    case DisconnectSockets(rooms, exceptRooms, ns) =>
      Publication(RequestChannel(ns), Json(DisconnectRequest(rooms, exceptRooms)))
    case EmitToServers(data, ns) =>
      Publication(RequestChannel(ns), Json(ServerEmitRequest(data)))
  }

  /**
   Call `op` once, given which values `json_encode` accepts. The packer is
   taken to accept every value; a JSON encoding failure is raised before the
   publish callback is reached.
   */
  function Perform(trace: Trace, op: Operation, jsonEncodes: Value -> bool): (r: Result<Trace, EncodeError>)
    ensures r.Success? ==> r.value == trace + [Message(op)]
    ensures r.Failure? <==> Message(op).payload.Json? && !jsonEncodes(Message(op).payload.tree)
  {
    var p := Message(op);
    if p.payload.Json? && !jsonEncodes(p.payload.tree) then Failure(JsonEncodeError)
    else Success(trace + [p])
  }

  /**
   Call the operations in order on one emitter, stopping at the first one that
   raises. Returns the publications made and, if a call raised, its index.
   */
  method Run(ops: seq<Operation>, jsonEncodes: Value -> bool) returns (trace: Trace, failedAt: Option<nat>)
    ensures failedAt.None? ==> |trace| == |ops|
    ensures failedAt.Some? ==> failedAt.value < |ops| && |trace| == failedAt.value
                               && Perform(trace, ops[failedAt.value], jsonEncodes).Failure?
    ensures forall i :: 0 <= i < |trace| ==> trace[i] == Message(ops[i])
    ensures forall i :: 0 <= i < |trace| ==> Perform(trace[..i], ops[i], jsonEncodes).Success?
  {
    trace := [];
    var k := 0;
    while k < |ops|
      invariant 0 <= k <= |ops|
      invariant |trace| == k
      invariant forall i :: 0 <= i < k ==> trace[i] == Message(ops[i])
      invariant forall i :: 0 <= i < k ==> Perform(trace[..i], ops[i], jsonEncodes).Success?
    {
      var r := Perform(trace, ops[k], jsonEncodes);
      if r.Failure? {
        return trace, Some(k);
      }
      assert r.value == trace + [Message(ops[k])];
      assert forall i :: 0 <= i <= k ==> r.value[..i] == trace[..i];
      trace := r.value;
      k := k + 1;
    }
    failedAt := None;
  }

  /** Calling the same operation twice publishes the same message twice. */
  lemma PerformTwice(trace: Trace, op: Operation, jsonEncodes: Value -> bool)
    requires Perform(trace, op, jsonEncodes).Success?
    ensures Perform(Perform(trace, op, jsonEncodes).value, op, jsonEncodes)
            == Success(trace + [Message(op), Message(op)])
  {
    var m := Message(op);
    var t1 := Perform(trace, op, jsonEncodes).value;
    assert t1 == trace + [m];
    assert Perform(t1, op, jsonEncodes) == Success(t1 + [m]);
    assert t1 + [m] == trace + [m, m];
  }
}
