/**
 The field layout of each message, stated as a consumer reads it: which keys
 exist, in which order, and what each one holds. The payloads are PHP arrays,
 whose insertion order both encoders keep.
 */
module Layout {
  import opened Wrappers
  import opened Values
  import opened RequestTypes
  import opened Channels
  import opened Emitter

  /** `{rooms, except}` holds the two room lists in that order. */
  lemma RoomSelectionLayout(rooms: seq<string>, exceptRooms: seq<string>)
    ensures var v := RoomSelection(rooms, exceptRooms);
            && KeysOf(v) == [StrKey("rooms"), StrKey("except")]
            && Field(v, "rooms") == Some(StringList(rooms))
            && Field(v, "except") == Some(StringList(exceptRooms))
  {
    LookupDistinct(RoomSelection(rooms, exceptRooms).entries);
  }

  /** The packet of a broadcast: `{type: EVENT, data: [event, data], nsp}`. */
  lemma EventPacketLayout(event: string, d: EventData, ns: string)
    ensures var v := EventPacket(event, d, ns);
            && KeysOf(v) == [StrKey("type"), StrKey("data"), StrKey("nsp")]
            && Field(v, "type") == Some(Int(EventPacketType))
            && Field(v, "data") == Some(ListOf([Str(event), DataValue(d)]))
            && Field(v, "nsp") == Some(Str(ns))
  {
    LookupDistinct(EventPacket(event, d, ns).entries);
  }

  /** The options of a broadcast: `{flags, rooms, except}`. */
  lemma BroadcastOptionsLayout(flags: seq<(Key, Value)>, rooms: seq<string>, exceptRooms: seq<string>)
    ensures var v := BroadcastOptions(flags, rooms, exceptRooms);
            && KeysOf(v) == [StrKey("flags"), StrKey("rooms"), StrKey("except")]
            && Field(v, "flags") == Some(Arr(flags))
            && Field(v, "rooms") == Some(StringList(rooms))
            && Field(v, "except") == Some(StringList(exceptRooms))
  {
    LookupDistinct(BroadcastOptions(flags, rooms, exceptRooms).entries);
  }

  /** `emit` publishes once on the broadcast channel of its namespace, packed with
      MessagePack: `["emitter", {type: EVENT, data: [event, data], nsp}, {flags, rooms, except}]`. */
  lemma EmitLayout(event: string, d: EventData, rooms: seq<string>, exceptRooms: seq<string>,
                   ns: string, flags: seq<(Key, Value)>)
    ensures var p := Message(Emit(event, d, rooms, exceptRooms, ns, flags));
            && p.channel == BroadcastChannel(ns)
            && p.payload.Packed?
            && AsList(p.payload.tree).Some?
            && var items := AsList(p.payload.tree).value;
            && |items| == 3
            && items[0] == Str(Uid)
            && KeysOf(items[1]) == [StrKey("type"), StrKey("data"), StrKey("nsp")]
            && Field(items[1], "type") == Some(Int(EventPacketType))
            && Field(items[1], "data") == Some(ListOf([Str(event), DataValue(d)]))
            && Field(items[1], "nsp") == Some(Str(ns))
            && KeysOf(items[2]) == [StrKey("flags"), StrKey("rooms"), StrKey("except")]
            && Field(items[2], "flags") == Some(Arr(flags))
            && Field(items[2], "rooms") == Some(StringList(rooms))
            && Field(items[2], "except") == Some(StringList(exceptRooms))
  {
    EventPacketLayout(event, d, ns);
    BroadcastOptionsLayout(flags, rooms, exceptRooms);
  }

  /** `joinRooms` and `leaveRooms` publish once on the request channel, as JSON
      `{type, opts: {rooms, except}, rooms: target}` with the kind's code. */
  lemma MembershipLayout(op: Operation)
    requires op.JoinRooms? || op.LeaveRooms?
    ensures var p := Message(op);
            var target := if op.JoinRooms? then op.roomsToJoin else op.roomsToLeave;
            var t := if op.JoinRooms? then RemoteJoin else RemoteLeave;
            && p.channel == RequestChannel(op.namespace)
            && p.payload.Json?
            && KeysOf(p.payload.tree) == [StrKey("type"), StrKey("opts"), StrKey("rooms")]
            && Field(p.payload.tree, "type") == Some(Int(Code(t)))
            && Field(p.payload.tree, "opts") == Some(RoomSelection(op.rooms, op.exceptRooms))
            && Field(p.payload.tree, "rooms") == Some(StringList(target))
  {
    LookupDistinct(Message(op).payload.tree.entries);
  }

  /** `disconnectSockets` publishes once on the request channel, as JSON
      `{type, opts: {rooms, except}, close: true}`, with no top-level `rooms`. */
  lemma DisconnectLayout(rooms: seq<string>, exceptRooms: seq<string>, ns: string)
    ensures var p := Message(DisconnectSockets(rooms, exceptRooms, ns));
            && p.channel == RequestChannel(ns)
            && p.payload.Json?
            && KeysOf(p.payload.tree) == [StrKey("type"), StrKey("opts"), StrKey("close")]
            && Field(p.payload.tree, "type") == Some(Int(Code(RemoteDisconnect)))
            && Field(p.payload.tree, "opts") == Some(RoomSelection(rooms, exceptRooms))
            && Field(p.payload.tree, "close") == Some(Bool(true))
            && Field(p.payload.tree, "rooms").None?
  {
    LookupDistinct(DisconnectRequest(rooms, exceptRooms).entries);
  }

  /** `emitToServers` publishes once on the request channel, as JSON
      `{uid: "emitter", type, data}` with the caller's data unchanged. */
  lemma ServerEmitLayout(data: seq<(Key, Value)>, ns: string)
    ensures var p := Message(EmitToServers(data, ns));
            && p.channel == RequestChannel(ns)
            && p.payload.Json?
            && KeysOf(p.payload.tree) == [StrKey("uid"), StrKey("type"), StrKey("data")]
            && Field(p.payload.tree, "uid") == Some(Str(Uid))
            && Field(p.payload.tree, "type") == Some(Int(Code(ServerEmit)))
            && Field(p.payload.tree, "data") == Some(Arr(data))
  {
    LookupDistinct(ServerEmitRequest(data).entries);
  }
}
