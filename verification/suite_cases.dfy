/**
 The calls of the project's test suite, with the channel and the decoded
 payload each one is expected to produce, written out literally.
 */
module SuiteCases {
  import opened Values
  import opened Emitter

  /** The one-room list `[a]` written out with its key. */
  function Rooms1(a: string): Value
  {
    Arr([(IntKey(0), Str(a))])
  }

  /** A one-room list is `[0 => a]`. */
  lemma StringList1(a: string)
    ensures StringList([a]) == Rooms1(a)
  {
  }

  /** `emit('event', ['data' => 1], ['my_room', 'my_other_room'], ['my_other_room'], 'custom_nsp')`. */
  lemma EmitCase()
    ensures Message(Emit("event", Fields([Entry("data", Int(1))]), ["my_room", "my_other_room"],
                         ["my_other_room"], "custom_nsp")).channel
            == "socket.io#custom_nsp#"
    ensures Message(Emit("event", Fields([Entry("data", Int(1))]), ["my_room", "my_other_room"],
                         ["my_other_room"], "custom_nsp")).payload
            == Packed(Arr([(IntKey(0), Str("emitter")),
                           (IntKey(1), Arr([Entry("type", Int(2)),
                                            Entry("data", Arr([(IntKey(0), Str("event")),
                                                               (IntKey(1), Arr([Entry("data", Int(1))]))])),
                                            Entry("nsp", Str("custom_nsp"))])),
                           (IntKey(2), Arr([Entry("flags", Arr([])),
                                            Entry("rooms", Arr([(IntKey(0), Str("my_room")),
                                                                (IntKey(1), Str("my_other_room"))])),
                                            Entry("except", Rooms1("my_other_room"))]))]))
  {
    StringList1("my_other_room");
    var two := StringList(["my_room", "my_other_room"]);
    assert two.entries == [(IntKey(0), Str("my_room")), (IntKey(1), Str("my_other_room"))];
    var data := ListOf([Str("event"), Arr([Entry("data", Int(1))])]);
    assert data.entries == [(IntKey(0), Str("event")), (IntKey(1), Arr([Entry("data", Int(1))]))];
  }

  /** `joinRooms(['new_room'], ['existing_room'], ['except_this_room'])`. */
  lemma JoinCase()
    ensures Message(JoinRooms(["new_room"], ["existing_room"], ["except_this_room"]))
            == Publication("socket.io-request#/#",
                           Json(Arr([Entry("type", Int(2)),
                                     Entry("opts", Arr([Entry("rooms", Rooms1("existing_room")),
                                                        Entry("except", Rooms1("except_this_room"))])),
                                     Entry("rooms", Rooms1("new_room"))])))
  {
    StringList1("existing_room");
    StringList1("except_this_room");
    StringList1("new_room");
  }

  /** `leaveRooms(['inactive_room'], ['existing_room'], ['except_this_room'])`. */
  lemma LeaveCase()
    ensures Message(LeaveRooms(["inactive_room"], ["existing_room"], ["except_this_room"]))
            == Publication("socket.io-request#/#",
                           Json(Arr([Entry("type", Int(3)),
                                     Entry("opts", Arr([Entry("rooms", Rooms1("existing_room")),
                                                        Entry("except", Rooms1("except_this_room"))])),
                                     Entry("rooms", Rooms1("inactive_room"))])))
  {
    StringList1("existing_room");
    StringList1("except_this_room");
    StringList1("inactive_room");
  }

  /** `disconnectSockets(['existing_room'], ['except_this_room'])`. */
  lemma DisconnectCase()
    ensures Message(DisconnectSockets(["existing_room"], ["except_this_room"]))
            == Publication("socket.io-request#/#",
                           Json(Arr([Entry("type", Int(4)),
                                     Entry("opts", Arr([Entry("rooms", Rooms1("existing_room")),
                                                        Entry("except", Rooms1("except_this_room"))])),
                                     Entry("close", Bool(true))])))
  {
    StringList1("existing_room");
    StringList1("except_this_room");
  }

  /** `emitToServers(['a' => 'b'])`. */
  lemma ServerEmitCase()
    ensures Message(EmitToServers([Entry("a", Str("b"))]))
            == Publication("socket.io-request#/#",
                           Json(Arr([Entry("uid", Str("emitter")),
                                     Entry("type", Int(6)),
                                     Entry("data", Arr([Entry("a", Str("b"))]))])))
  {
  }
}
