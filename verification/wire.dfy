/** The five network messages of the chat protocol, as field-level records.
    A datagram carries a keyed object with an integer `code` (1 to 5), a
    `name`, and for chat text also a `text`; the JSON text form is not
    modelled. */
module Wire {
  import opened Base

  /** A decoded datagram payload. A field the sender did not put is `None`. */
  datatype Packet = Packet(code: int, name: Option<string>, text: Option<string>)

  /** One outbound unicast datagram. */
  datatype Datagram = Datagram(to: Addr, packet: Packet)

  /** The protocol's message kinds, independent of their field layout. */
  datatype WireMsg =
    | WhoIsOnline(name: string)
    | IAmOnline(name: string)
    | ChatText(name: string, text: string)
    | NewName(name: string)
    | ChatLeft(name: string)

  const WhoIsOnlineCode: int := 1
  const IAmOnlineCode: int := 2
  const ChatCode: int := 3
  const NewNameCode: int := 4
  const ChatLeftCode: int := 5

  /** Reads a packet the way the receiving side does: the code selects the
      kind, and every field that kind reads must be present. */
  function Decode(p: Packet): (r: Option<WireMsg>)
    ensures r.None? <==> p.name.None? || !(1 <= p.code <= 5) || (p.code == ChatCode && p.text.None?)
    ensures r.Some? ==> p.name == Some(r.value.name)
    ensures r.Some? ==> (r.value.WhoIsOnline? <==> p.code == WhoIsOnlineCode)
    ensures r.Some? ==> (r.value.NewName? <==> p.code == NewNameCode)
  {
    if p.name.None? then None
    else if p.code == WhoIsOnlineCode then Some(WhoIsOnline(p.name.value))
    else if p.code == IAmOnlineCode then Some(IAmOnline(p.name.value))
    else if p.code == ChatCode then
      (if p.text.None? then None else Some(ChatText(p.name.value, p.text.value)))
    else if p.code == NewNameCode then Some(NewName(p.name.value))
    else if p.code == ChatLeftCode then Some(ChatLeft(p.name.value))
    else None
  }

  /** Discovery request, broadcast by the heartbeat timer. */
  function CreateWhoIsOnlineMessage(myName: string): (p: Packet)
    ensures Decode(p) == Some(WhoIsOnline(myName))
    ensures p.text.None?
  {
    Packet(WhoIsOnlineCode, Some(myName), None)
  }

  /** Reply to a discovery request. */
  function CreateIAmOnlineMessage(myName: string): (p: Packet)
    ensures Decode(p) == Some(IAmOnline(myName))
    ensures p.text.None?
  {
    Packet(IAmOnlineCode, Some(myName), None)
  }

  /** A line of chat; the only message that carries a text field. */
  function CreateChatMessage(myName: string, msg: string): (p: Packet)
    ensures Decode(p) == Some(ChatText(myName, msg))
    ensures p.text == Some(msg)
  {
    Packet(ChatCode, Some(myName), Some(msg))
  }

  /** Announces the sender's new name. */
  function CreateNewNameMessage(myNewName: string): (p: Packet)
    ensures Decode(p) == Some(NewName(myNewName))
    ensures p.text.None?
  {
    Packet(NewNameCode, Some(myNewName), None)
  }

  /** Announces that the sender leaves the chat. */
  function CreateChatLeftMessage(myName: string): (p: Packet)
    ensures Decode(p) == Some(ChatLeft(myName))
    ensures p.text.None?
  {
    Packet(ChatLeftCode, Some(myName), None)
  }

  /** The packet the matching `Create...Message` builds for a message kind. */
  function Encode(m: WireMsg): Packet
  {
    match m
    case WhoIsOnline(n) => CreateWhoIsOnlineMessage(n)
    case IAmOnline(n) => CreateIAmOnlineMessage(n)
    case ChatText(n, t) => CreateChatMessage(n, t)
    case NewName(n) => CreateNewNameMessage(n)
    case ChatLeft(n) => CreateChatLeftMessage(n)
  }

  /** Every field value survives the round trip, and a packet the receiver
      accepts and that carries no field foreign to its kind is exactly the
      packet its message re-encodes to. */
  lemma {:induction false} EncodeDecodeRoundTrip(m: WireMsg, p: Packet)
    ensures Decode(Encode(m)) == Some(m)
    ensures Decode(p).Some? && (p.code != ChatCode ==> p.text.None?) ==> Encode(Decode(p).value) == p
  {
    match m
    case WhoIsOnline(n) =>
    case IAmOnline(n) =>
    case ChatText(n, t) =>
    case NewName(n) =>
    case ChatLeft(n) =>
  }

  /** The five codes are pairwise distinct: two messages share a code exactly
      when they are of the same kind, and every code lies in 1 to 5. */
  lemma CodesSelectKind(m1: WireMsg, m2: WireMsg)
    ensures 1 <= Encode(m1).code <= 5
    ensures Encode(m1).code == Encode(m2).code <==>
      (m1.WhoIsOnline? && m2.WhoIsOnline?) || (m1.IAmOnline? && m2.IAmOnline?) ||
      (m1.ChatText? && m2.ChatText?) || (m1.NewName? && m2.NewName?) ||
      (m1.ChatLeft? && m2.ChatLeft?)
  {
  }
}
