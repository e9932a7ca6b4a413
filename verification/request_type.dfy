/**
 The administrative request kinds of the Socket.IO adapter protocol and their
 integer codes. The codes are fixed by the protocol: gateway servers read the
 `type` field of a request and dispatch on it.
 */
module RequestTypes {
  import opened Wrappers

  datatype RequestType = RemoteJoin | RemoteLeave | RemoteDisconnect | ServerEmit

  /** The integer backing value of each case. */
  function Code(t: RequestType): int
  {
    match t
    case RemoteJoin => 2
    case RemoteLeave => 3
    case RemoteDisconnect => 4
    case ServerEmit => 6
  }

  /** `RequestType::tryFrom(c)`: the case whose code is `c`, if any. */
  function FromCode(c: int): (r: Option<RequestType>)
    ensures r.Some? ==> Code(r.value) == c
    ensures r.None? ==> forall t: RequestType :: Code(t) != c
  {
    if c == 2 then Some(RemoteJoin)
    else if c == 3 then Some(RemoteLeave)
    else if c == 4 then Some(RemoteDisconnect)
    else if c == 6 then Some(ServerEmit)
    else None
  }

  /** Reading a code back gives the case it came from. */
  lemma FromCodeInvertsCode(t: RequestType)
    ensures FromCode(Code(t)) == Some(t)
  {
  }

  /** No two cases share a code, so a payload's `type` field names one request kind. */
  lemma CodeInjective(a: RequestType, b: RequestType)
    ensures Code(a) == Code(b) <==> a == b
  {
  }

  /** The protocol values of the four codes. */
  lemma CodeValues()
    ensures Code(RemoteJoin) == 2
    ensures Code(RemoteLeave) == 3
    ensures Code(RemoteDisconnect) == 4
    ensures Code(ServerEmit) == 6
  {
  }
}
