/**
 Channel naming. Every namespace has two channels: the broadcast channel
 `socket.io#<ns>#` that carries events for clients, and the request channel
 `socket.io-request#<ns>#` that carries administrative requests for the
 gateway servers. The namespace is inserted verbatim.
 */
module Channels {
  import opened Wrappers

  /** The fixed prefix of every channel name. */
  const ChannelPrefix: string := "socket.io"

  /** The start of a broadcast channel name, up to the namespace. */
  const BroadcastHead: string := ChannelPrefix + "#"

  /** The start of a request channel name, up to the namespace. */
  const RequestHead: string := ChannelPrefix + "-request#"

  /** A channel: its family and the namespace it serves. */
  datatype Channel = Broadcast(namespace: string) | Request(namespace: string)

  /** The name of the broadcast channel of `ns`. */
  function BroadcastChannel(ns: string): (ch: string)
    ensures ParseChannel(ch) == Some(Broadcast(ns))
  {
    var ch := BroadcastHead + ns + "#";
    assert ch[..|BroadcastHead|] == BroadcastHead;
    assert ch[|BroadcastHead|..|ch| - 1] == ns;
    ch
  }

  /** The name of the request channel of `ns`. */
  function RequestChannel(ns: string): (ch: string)
    ensures ParseChannel(ch) == Some(Request(ns))
  {
    var ch := RequestHead + ns + "#";
    assert ch[..|RequestHead|] == RequestHead;
    assert ch[|RequestHead|..|ch| - 1] == ns;
    assert ch[9] != BroadcastHead[9];  // '-' where a broadcast name has '#'
    ch
  }

  /** The name of a channel. */
  function ChannelName(c: Channel): string
  {
    match c
    case Broadcast(ns) => BroadcastChannel(ns)
    case Request(ns) => RequestChannel(ns)
  }

  /** The channel a name denotes, if it is a broadcast or request channel name. */
  function ParseChannel(ch: string): Option<Channel>
  {
    if |ch| > |BroadcastHead| && ch[..|BroadcastHead|] == BroadcastHead && ch[|ch| - 1] == '#' then
      Some(Broadcast(ch[|BroadcastHead|..|ch| - 1]))
    else if |ch| > |RequestHead| && ch[..|RequestHead|] == RequestHead && ch[|ch| - 1] == '#' then
      Some(Request(ch[|RequestHead|..|ch| - 1]))
    else
      None
  }

  /** `ParseChannel` accepts exactly the channel names. */
  lemma ParseOnlyChannelNames(ch: string, c: Channel)
    requires ParseChannel(ch) == Some(c)
    ensures ch == ChannelName(c)
  {
  }

  /** Channel names determine family and namespace. */
  lemma ChannelNameInjective(a: Channel, b: Channel)
    ensures ChannelName(a) == ChannelName(b) <==> a == b
  {
  }

  /** No broadcast channel is a request channel, whatever the two namespaces. */
  lemma FamiliesDisjoint(a: string, b: string)
    ensures BroadcastChannel(a) != RequestChannel(b)
  {
  }

  /** The channels of the namespaces used by the test suite. */
  lemma ExampleChannels()
    ensures BroadcastChannel("custom_nsp") == "socket.io#custom_nsp#"
    ensures RequestChannel("/") == "socket.io-request#/#"
  {
  }
}
