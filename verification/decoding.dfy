/**
 The reading side of the wire format, as a gateway server (or the test suite,
 through `json_decode`) sees it: a strict decoder that recovers the operation
 from a publication. It is the partner of `Emitter.Message`: the two lemmas at
 the end show that it accepts exactly the publications the emitter makes and
 gives back the call that made each one, so no field of a call is lost or
 mixed up on the wire.
 */
module Decoding {
  import opened Wrappers
  import opened Values
  import opened RequestTypes
  import opened Channels
  import opened Emitter

  /** The request kind an operation sends, or None for a broadcast. */
  function RequestKind(op: Operation): Option<RequestType>
  {
    match op
    case Emit(_, _, _, _, _, _) => None
    case JoinRooms(_, _, _, _) => Some(RemoteJoin)
    case LeaveRooms(_, _, _, _) => Some(RemoteLeave)
    case DisconnectSockets(_, _, _) => Some(RemoteDisconnect)
    case EmitToServers(_, _) => Some(ServerEmit)
  }

  /** The request kind named by the `type` field of a request payload. */
  function RequestTypeOf(v: Value): Option<RequestType>
  {
    match Field(v, "type")
    case Some(Int(c)) => FromCode(c)
    case _ => None
  }

  /** The data argument of `emit` that a packed value stands for. */
  function DecodeEventData(v: Value): (r: Option<EventData>)
    ensures r.Some? ==> DataValue(r.value) == v
  {
    match v
    case Null => Some(NoData)
    case Str(s) => Some(Text(s))
    case Arr(e) => Some(Fields(e))
    case _ => None
  }

  /** The `rooms` and `except` lists of a room selection `{rooms, except}`. */
  function DecodeRoomSelection(v: Value): Option<(seq<string>, seq<string>)>
  {
    if v.Arr? && |v.entries| == 2 && v.entries[0].0 == StrKey("rooms") && v.entries[1].0 == StrKey("except")
       && AsStrings(v.entries[0].1).Some? && AsStrings(v.entries[1].1).Some?
    then Some((AsStrings(v.entries[0].1).value, AsStrings(v.entries[1].1).value))
    else None
  }

  /** The operation a request payload published on the request channel of `ns` stands for. */
  function DecodeRequest(v: Value, ns: string): Option<Operation>
  {
    if !v.Arr? || |v.entries| != 3 then None
    else
      var e := v.entries;
      if e[0] == Entry("uid", Str(Uid)) && e[1] == Entry("type", Int(Code(ServerEmit)))
         && e[2].0 == StrKey("data") && e[2].1.Arr? then
        Some(EmitToServers(e[2].1.entries, ns))
      else if e[0].0 == StrKey("type") && e[0].1.Int? && e[1].0 == StrKey("opts") then
        match (FromCode(e[0].1.i), DecodeRoomSelection(e[1].1))
        case (Some(RemoteJoin), Some(sel)) =>
          if e[2].0 == StrKey("rooms") && AsStrings(e[2].1).Some?
          then Some(JoinRooms(AsStrings(e[2].1).value, sel.0, sel.1, ns)) else None
        case (Some(RemoteLeave), Some(sel)) =>
          if e[2].0 == StrKey("rooms") && AsStrings(e[2].1).Some?
          then Some(LeaveRooms(AsStrings(e[2].1).value, sel.0, sel.1, ns)) else None
        case (Some(RemoteDisconnect), Some(sel)) =>
          if e[2] == Entry("close", Bool(true)) then Some(DisconnectSockets(sel.0, sel.1, ns)) else None
        case _ => None
      else None
  }

  /** The `emit` call a packed broadcast published on the broadcast channel of `ns` stands for. */
  function DecodeBroadcast(v: Value, ns: string): Option<Operation>
  {
    match AsList(v)
    case None => None
    case Some(items) =>
      if |items| != 3 || items[0] != Str(Uid) || !items[1].Arr? || !items[2].Arr? then None
      else
        var packet := items[1].entries;
        var opts := items[2].entries;
        if |packet| == 3 && packet[0] == Entry("type", Int(EventPacketType))
           && packet[1].0 == StrKey("data") && packet[2] == Entry("nsp", Str(ns))
           && |opts| == 3 && opts[0].0 == StrKey("flags") && opts[0].1.Arr?
           && opts[1].0 == StrKey("rooms") && opts[2].0 == StrKey("except")
        then
          match (AsList(packet[1].1), AsStrings(opts[1].1), AsStrings(opts[2].1))
          case (Some(data), Some(rooms), Some(exceptRooms)) =>
            if |data| == 2 && data[0].Str? && DecodeEventData(data[1]).Some? then
              Some(Emit(data[0].s, DecodeEventData(data[1]).value, rooms, exceptRooms, ns, opts[0].1.entries))
            else None
          case _ => None
        else None
  }

  /** The operation a publication stands for, if the emitter could have made it. */
  function DecodePublication(p: Publication): Option<Operation>
  {
    match ParseChannel(p.channel)
    case Some(Broadcast(ns)) => if p.payload.Packed? then DecodeBroadcast(p.payload.tree, ns) else None
    case Some(Request(ns)) => if p.payload.Json? then DecodeRequest(p.payload.tree, ns) else None
    case None => None
  }

  /** The data argument of `emit` survives the trip through a value. */
  lemma DecodeEventDataInverse(d: EventData)
    ensures DecodeEventData(DataValue(d)) == Some(d)
  {
  }

  /** A room selection gives back its two lists ... */
  lemma RoomSelectionRoundTrip(rooms: seq<string>, exceptRooms: seq<string>)
    ensures DecodeRoomSelection(RoomSelection(rooms, exceptRooms)) == Some((rooms, exceptRooms))
  {
  }

  /** ... and only room selections are read as one. */
  lemma RoomSelectionStrict(v: Value, rooms: seq<string>, exceptRooms: seq<string>)
    requires DecodeRoomSelection(v) == Some((rooms, exceptRooms))
    ensures v == RoomSelection(rooms, exceptRooms)
  {
    AsStringsOnlyOfStringLists(v.entries[0].1, rooms);
    AsStringsOnlyOfStringLists(v.entries[1].1, exceptRooms);
    assert v.entries == RoomSelection(rooms, exceptRooms).entries;
  }

  /** A request payload is read back as the call that made it. */
  lemma DecodeRequestOfMessage(op: Operation)
    requires !op.Emit?
    ensures DecodeRequest(Message(op).payload.tree, op.namespace) == Some(op)
  {
  }

  /** A request payload that is read as `op` is the payload `op` sends. */
  lemma DecodeRequestStrict(v: Value, ns: string, op: Operation)
    requires DecodeRequest(v, ns) == Some(op)
    ensures !op.Emit? && op.namespace == ns
    ensures Message(op).payload == Json(v)
  {
    var e := v.entries;
    if !op.EmitToServers? {
      var sel := DecodeRoomSelection(e[1].1).value;
      RoomSelectionStrict(e[1].1, sel.0, sel.1);
      FromCodeInvertsCode(RequestKind(op).value);
      if !op.DisconnectSockets? {
        AsStringsOnlyOfStringLists(e[2].1, AsStrings(e[2].1).value);
      }
    }
    assert e == Message(op).payload.tree.entries;
  }

  /** A broadcast payload is read back as the `emit` call that made it. */
  lemma DecodeBroadcastOfMessage(op: Operation)
    requires op.Emit?
    ensures DecodeBroadcast(Message(op).payload.tree, op.namespace) == Some(op)
  {
  }

  /** A broadcast payload that is read as `op` is the payload `op` sends. */
  lemma DecodeBroadcastStrict(v: Value, ns: string, op: Operation)
    requires DecodeBroadcast(v, ns) == Some(op)
    ensures op.Emit? && op.namespace == ns
    ensures Message(op).payload == Packed(v)
  {
    var items := AsList(v).value;
    AsListOnlyOfLists(v, items);
    var packet := items[1].entries;
    var opts := items[2].entries;
    var data := AsList(packet[1].1).value;
    AsListOnlyOfLists(packet[1].1, data);
    assert data == [Str(op.event), DataValue(op.eventData)];
    AsStringsOnlyOfStringLists(opts[1].1, op.rooms);
    AsStringsOnlyOfStringLists(opts[2].1, op.exceptRooms);
    assert packet == EventPacket(op.event, op.eventData, ns).entries;
    assert opts == BroadcastOptions(op.flags, op.rooms, op.exceptRooms).entries;
    assert items == [Str(Uid), EventPacket(op.event, op.eventData, ns),
                     BroadcastOptions(op.flags, op.rooms, op.exceptRooms)];
  }

  /** Every publication of the emitter is read back as the call that made it. */
  lemma DecodeMessage(op: Operation)
    ensures DecodePublication(Message(op)) == Some(op)
  {
    if op.Emit? {
      DecodeBroadcastOfMessage(op);
    } else {
      DecodeRequestOfMessage(op);
    }
  }

  /** The decoder accepts only publications of the emitter. */
  lemma DecodeOnlyMessages(p: Publication, op: Operation)
    requires DecodePublication(p) == Some(op)
    ensures p == Message(op)
  {
    var c := ParseChannel(p.channel).value;
    ParseOnlyChannelNames(p.channel, c);
    if c.Broadcast? {
      DecodeBroadcastStrict(p.payload.tree, c.namespace, op);
    } else {
      DecodeRequestStrict(p.payload.tree, c.namespace, op);
    }
  }

  /** Different calls publish different messages: every argument reaches the wire. */
  lemma MessageInjective(a: Operation, b: Operation)
    ensures Message(a) == Message(b) <==> a == b
  {
  }

  /** The `type` field of a request names the kind of call that sent it. */
  lemma RequestTypeOfMessage(op: Operation)
    requires !op.Emit?
    ensures RequestTypeOf(Message(op).payload.tree) == RequestKind(op)
  {
    LookupDistinct(Message(op).payload.tree.entries);
    FromCodeInvertsCode(RequestKind(op).value);
  }

  /** A call publishes once: a successful call keeps the earlier publications and
      appends one that reads back as that very call, and `emit` never fails. */
  lemma PerformPublishesCall(trace: Trace, op: Operation, jsonEncodes: Value -> bool)
    ensures op.Emit? ==> Perform(trace, op, jsonEncodes).Success?
    ensures var r := Perform(trace, op, jsonEncodes);
            r.Success? ==> && |r.value| == |trace| + 1
                           && r.value[..|trace|] == trace
                           && DecodePublication(r.value[|trace|]) == Some(op)
  {
    DecodeMessage(op);
    assert (trace + [Message(op)])[..|trace|] == trace;
  }
}
