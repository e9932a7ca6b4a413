# Socket.IO emitter for PHP, modelled in Dafny

This project models the `Emitter` class of a PHP library and its `RequestType` enum. The library lets a backend process send events and administrative commands to a cluster of Socket.IO servers through a pub/sub broker. Its methods open no connections and keep no room state. Each call builds one message, encodes it, and hands `(channel, payload)` to a publish closure that the caller supplies.

Modules, following the source:

- `Values` models the PHP values put on the wire: scalars and ordered arrays of `(key, value)` entries. A PHP list is an array whose keys are `0, 1, 2, …` in order. Lookup by key finds the first entry that has it.
- `RequestTypes` models `RequestType`: the four request kinds, their protocol codes, and the reverse mapping `FromCode` (`RequestType::tryFrom`).
- `Channels` models channel naming. The broadcast channel is `socket.io#<ns>#` and the request channel is `socket.io-request#<ns>#`. `ParseChannel` is the inverse of both.
- `Emitter` models the five public operations as one `Operation` datatype. `Message` gives the one publication each call makes. `Perform` and `Run` model the publish closure as a trace that gains exactly one entry per successful call.
- `Layout` states the field layout of every message: which keys exist, in what order, and what each holds.
- `Decoding` is a strict decoder, the reading side of the wire format. It is proved to be an exact inverse of `Message`. So every argument of every call reaches the wire, and nothing else does.
- `SuiteCases` holds the calls of the repository's test suite, with the expected channel and the expected payload written out literally.

A payload records which encoder produced it, `Packed` for MessagePack or `Json` for `json_encode`, and the PHP value it was given. Bytes are not modelled.

The constructors of `Operation` carry the source's default arguments: `data = null`, `rooms = []`, `exceptRooms = []`, `namespace = '/'` and `flags = []`. The default `flags` is the empty PHP array `[]`. Both encoders write it as an empty list, not an empty map.

## Model

| member | source | states |
|---|---|---|
| Channels.BroadcastChannel | src/Emitter.php:160-163 | The broadcast channel of `ns` parses back as the broadcast channel of exactly `ns`. The name is `socket.io#` + ns + `#`, with the namespace inserted verbatim. |
| Channels.RequestChannel | src/Emitter.php:165-168 | The request channel of `ns` parses back as the request channel of exactly `ns`. The name is `socket.io-request#` + ns + `#`. |
| Channels.ParseOnlyChannelNames | src/Emitter.php:160-168 | A string that parses as a channel is exactly that channel's name, so the two naming functions and the parser are mutually inverse. |
| Channels.ChannelNameInjective | src/Emitter.php:160-168 | Two channel names are equal iff they have the same family and the same namespace. |
| Channels.FamiliesDisjoint | src/Emitter.php:160-168 | No broadcast channel name equals any request channel name, whatever the two namespaces are. |
| Channels.ExampleChannels | tests/EmitterTest.php:38-46 | `custom_nsp` gives `socket.io#custom_nsp#` and `/` gives `socket.io-request#/#`. |
| RequestTypes.FromCode | src/RequestType.php:5-11 | Reading a code back gives a case with exactly that code. It gives None only when no case has the code. |
| RequestTypes.FromCodeInvertsCode | src/RequestType.php:5-11 | Every case is recovered from its own code. |
| RequestTypes.CodeInjective | src/RequestType.php:5-11 | Two cases have the same code iff they are the same case. |
| RequestTypes.CodeValues | src/RequestType.php:7-10 | RemoteJoin = 2, RemoteLeave = 3, RemoteDisconnect = 4, ServerEmit = 6. |
| Values.ListOf | src/Emitter.php:45-57 | The list built from some items is a PHP list whose items, read back, are exactly those items in order. |
| Values.StringList | src/Emitter.php:77-81 | A room list passed as a PHP list of strings reads back as exactly the same room names in order. |
| Values.EmptyStringList | src/Emitter.php:71-72 | An empty room list stays an empty list `[]` and reads back as the empty list. |
| Values.AsStringsOnlyOfStringLists | src/Emitter.php:77-81 | Any value that reads as a list of room names is exactly the list built from those names. |
| Emitter.Message | src/Emitter.php:37-158 | `emit` alone is packed with MessagePack, and it goes to the broadcast channel of its namespace. Every other operation is JSON-encoded and goes to the request channel of its namespace. |
| Decoding.PerformPublishesCall | src/Emitter.php:141-158 | `emit` never fails to publish. A successful call keeps the earlier publications unchanged and appends exactly one more, which decodes back to that same call. |
| Emitter.Run | src/Emitter.php:9-27 | Calls on one emitter publish, in order, exactly the messages of the calls made. Every published call succeeded, so no payload that `json_encode` rejects is ever published. If a call raises, the calls before it have published and it has not. |
| Emitter.PerformTwice | src/Emitter.php:9-17 | Repeating a call publishes the same channel and payload again, because the emitter keeps no state between calls. |
| Layout.RoomSelectionLayout | src/Emitter.php:77-80 | `opts` has the keys `rooms` and `except` in that order, holding the two room lists. |
| Layout.EventPacketLayout | src/Emitter.php:47-51 | The packet has the keys `type`, `data`, `nsp` in that order. `type` is the EVENT packet type, `data` is `[event, data]` and `nsp` is the namespace. |
| Layout.BroadcastOptionsLayout | src/Emitter.php:52-56 | The options have the keys `flags`, `rooms`, `except` in that order, holding the caller's arguments. |
| Layout.EmitLayout | src/Emitter.php:37-60 | `emit` publishes on the broadcast channel of its own namespace. The packed list is `["emitter", packet, options]`, with the packet's `nsp` equal to that same namespace. |
| Layout.MembershipLayout | src/Emitter.php:69-107 | `joinRooms` and `leaveRooms` publish JSON on the request channel with the keys `type`, `opts`, `rooms` in that order. `type` is RemoteJoin or RemoteLeave, and the top-level `rooms` holds the rooms to join or leave. |
| Layout.DisconnectLayout | src/Emitter.php:115-125 | `disconnectSockets` publishes JSON with the keys `type`, `opts`, `close` in that order, with `close = true` and no top-level `rooms` key. |
| Layout.ServerEmitLayout | src/Emitter.php:132-139 | `emitToServers` publishes JSON with the keys `uid`, `type`, `data` in that order. `uid` is `"emitter"`, `type` is ServerEmit, and `data` is the caller's array unchanged. |
| Decoding.DecodeEventData | src/Emitter.php:39 | A decoded `emit` data argument stands for exactly the value that was decoded. |
| Decoding.DecodeEventDataInverse | src/Emitter.php:39 | The null, string or array data of `emit` is recovered from its value. |
| Decoding.RoomSelectionRoundTrip | src/Emitter.php:77-80 | `opts` gives back its `rooms` and `except` lists, including empty ones. |
| Decoding.RoomSelectionStrict | src/Emitter.php:77-80 | Only the `opts` value built from two lists decodes to those lists. |
| Decoding.DecodeRequestOfMessage | src/Emitter.php:69-139 | Every request payload decodes, with the namespace of its channel, to the call that made it. |
| Decoding.DecodeRequestStrict | src/Emitter.php:69-139 | A request payload that decodes to a call is exactly the JSON payload that call sends. |
| Decoding.DecodeBroadcastOfMessage | src/Emitter.php:37-60 | Every broadcast payload decodes, with the namespace of its channel, to the `emit` call that made it. |
| Decoding.DecodeBroadcastStrict | src/Emitter.php:37-60 | A broadcast payload that decodes to a call is exactly the packed payload of that `emit` call. Its `nsp` equals the channel's namespace. |
| Decoding.DecodeMessage | src/Emitter.php:37-168 | Every publication of the emitter is read back as the call that made it. |
| Decoding.DecodeOnlyMessages | src/Emitter.php:37-168 | The decoder accepts only publications the emitter makes, channel and payload together. |
| Decoding.MessageInjective | src/Emitter.php:37-168 | Two calls publish the same channel and payload iff they are the same call with the same arguments. |
| Decoding.RequestTypeOfMessage | src/Emitter.php:75-138 | The `type` field of every request payload decodes to the kind of call that sent it. |
| SuiteCases.EmitCase | tests/EmitterTest.php:28-40 | The suite's `emit` call goes to `socket.io#custom_nsp#` with the literal packed payload. |
| SuiteCases.JoinCase | tests/EmitterTest.php:42-55 | The suite's `joinRooms` call gives exactly the expected channel and payload. |
| SuiteCases.LeaveCase | tests/EmitterTest.php:57-70 | The suite's `leaveRooms` call gives exactly the expected channel and payload. |
| SuiteCases.DisconnectCase | tests/EmitterTest.php:72-85 | The suite's `disconnectSockets` call gives exactly the expected channel and payload. |
| SuiteCases.ServerEmitCase | tests/EmitterTest.php:87-97 | The suite's `emitToServers` call gives exactly the expected channel and payload. |

## Left out

- MessagePack bytes: `Packer::packArray` belongs to an external library. A packed payload is the value that was packed. The packer is taken to accept every modelled value, so `emit` never fails to encode.
- JSON text: `json_encode` is a PHP built-in. A JSON payload is the PHP value that was encoded. When `json_encode` rejects a value (the `JsonException` path), that is a parameter `jsonEncodes` of `Perform` and `Run`, not a rule about text.
- The publish closure and `call_user_func`: a successful call appends one entry to a trace. If the closure itself fails, that failure belongs to the caller's code and is not modelled.
- `PacketType`: its file is not part of this model. `PacketType::Event` is the named constant `EventPacketType = 2`, the Socket.IO EVENT packet type.
- Floating-point values and objects inside user `data` and `flags`: `Value` has no floats and no objects.
- Integer width: integers are unbounded. The emitter does no arithmetic, so PHP's 64-bit width never matters here.
- PHP strings are byte strings, but the model uses Dafny strings of characters. Invalid UTF-8 is one reason `json_encode` rejects a value, and it is covered only through `jsonEncodes`.
- PHP's normalisation of numeric string keys (`"1"` becomes `1`) is not modelled. The emitter's own keys are all non-numeric literals.
- Room arguments that are not lists: every room argument (`rooms`, `exceptRooms`, `roomsToJoin`, `roomsToLeave`) is a PHP `array` passed on unchanged. The model takes each one as a list of strings keyed 0, 1, 2, …. An array with other keys, such as the result of `array_filter`, would be written as a JSON object or a MessagePack map. The model does not cover that case, and the `rooms`/`except` facts in `Layout` and `Decoding` hold only for list inputs.
- Emitter.Run: it stops at the first call that raises. In PHP, a caller that catches the exception can go on making calls; each of those calls again publishes once or raises, as `Decoding.PerformPublishesCall` states.
- Concurrency: the emitter has none.
