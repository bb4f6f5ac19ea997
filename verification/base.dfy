/** Shared vocabulary of the LAN chat model: optional values, the observer
    notifications of the model classes, and peer addresses. */
module Base {

  /** A value that may be absent; `None` stands for Java's `null`. */
  datatype Option<+T> = None | Some(value: T)

  /** The notifications the observable model classes send to their observers.
      The model records them as an appended trace instead of calling observers. */
  datatype Notification =
    | ListOfParticipantsChanged
    | MessageReceived
    | SettingsChanged
    | LanguageChanged
    | NameChanged
    | ConnectionEstablished
    | ConnectionError
    | Error

  /** A peer's network address, held as its textual IP form. */
  datatype Addr = Addr(ip: string)

  /** The key under which a peer is stored: the `toString()` of the address a
      datagram came from. For a received packet no host name is resolved, so
      it is "/" followed by the IP. */
  function IdOf(a: Addr): string
  {
    "/" + a.ip
  }

  /** Distinct addresses give distinct ids, so one id names one peer. */
  lemma IdOfInjective(a: Addr, b: Addr)
    ensures IdOf(a) == IdOf(b) ==> a == b
  {
    if IdOf(a) == IdOf(b) {
      assert a.ip == IdOf(a)[1..] == IdOf(b)[1..] == b.ip;
    }
  }
}
