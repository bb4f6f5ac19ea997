/** The chat core: what one received datagram does to the participant table
    and the history, and the fan-out of an outgoing message to every peer
    that is online. The clock value and the printed receive time are
    parameters; sending is modelled as the list of datagrams produced. */
module Core {
  import opened Base
  import opened Wire
  import opened Presence
  import opened Messages
  import opened History

  /** The two model objects a received datagram changes. */
  datatype ChatState = ChatState(table: Table, history: Log)

  /** What processing one datagram comes to. `Dropped`: a field the code
      reads is missing, which the receive loop skips. `Crashed`: a lookup of
      a peer that is not in the table fails, which ends the receive loop. */
  datatype Outcome =
    | Handled(state: ChatState, replies: seq<Datagram>, events: seq<Notification>)
    | Dropped
    | Crashed

  /** The table after a presence message, whether it counts as the sender
      joining, and the notifications sent. */
  datatype Seen = Seen(table: Table, events: seq<Notification>, joined: bool)

  /** The table side of a presence message (codes 1 and 2): a peer heard from
      for the first time is added under its address id with the payload
      name; a known peer is only refreshed, keeping its stored name, and
      counts as joining again when it had gone offline. */
  function Hear(t: Table, from: Addr, name: string, now: int): (r: Seen)
    ensures IdOf(from) in r.table && IsOnline(r.table[IdOf(from)], now)
    ensures r.table[IdOf(from)].lastSignal == now
    ensures IdOf(from) in t ==> r.table[IdOf(from)] == t[IdOf(from)].(lastSignal := now)
    ensures r.joined <==> IdOf(from) !in t || !IsOnline(t[IdOf(from)], now)
    ensures IdOf(from) in t ==>
      && r.table[IdOf(from)].name == t[IdOf(from)].name
      && r.table[IdOf(from)].textColor == t[IdOf(from)].textColor
    ensures IdOf(from) !in t ==>
      && r.table[IdOf(from)].name == name
      && r.table[IdOf(from)].addr == from
      && r.table[IdOf(from)].textColor == ColorFor(|t|)
    ensures r.table.Keys == t.Keys + {IdOf(from)}
    ensures forall id :: id in t && id != IdOf(from) ==> r.table[id] == t[id]
    ensures r.events == [ListOfParticipantsChanged]
  {
    var id := IdOf(from);
    if !ContainsParticipant(t, id) then
      var u := AddParticipant(t, CreateNewParticipant(t, id, name, from, now));
      Seen(u.table, u.events, true)
    else
      var joined := !IsOnlineId(t, id, now);
      var u := SetParticipantOnline(t, id, now);
      Seen(u.table, u.events, joined)
  }

  /** A presence message: the table side, then a join entry when the sender
      joined. */
  function OnPresence(s: ChatState, from: Addr, name: string, now: int): (r: (ChatState, seq<Notification>))
    ensures var seen := Hear(s.table, from, name, now);
      && r.0.table == seen.table
      && r.0.history == s.history + (if seen.joined then [NewParticipantMessage(name)] else [])
      && r.1 == [ListOfParticipantsChanged] + (if seen.joined then [MessageReceived] else [])
  {
    var seen := Hear(s.table, from, name, now);
    if seen.joined then
      var logged := AddMessage(s.history, NewParticipantMessage(name));
      (ChatState(seen.table, logged.log), seen.events + logged.events)
    else
      (ChatState(seen.table, s.history), seen.events)
  }

  /** One received datagram, with its sender's address, the clock value and
      the printed receive time. `myName` is the configured name sent in the
      reply to a discovery request. */
  function ProcessMessage(s: ChatState, now: int, stamp: string, myName: string, msg: Packet, from: Addr): (r: Outcome)
    // Which datagrams are skipped and which end the receive loop.
    ensures r.Dropped? <==> 1 <= msg.code <= 5 && Decode(msg).None?
    ensures r.Crashed? <==> msg.code == NewNameCode && msg.name.Some? && IdOf(from) !in s.table
    // Only a discovery request is answered, and only to its sender.
    ensures r.Handled? && msg.code == WhoIsOnlineCode ==> r.replies == [Datagram(from, CreateIAmOnlineMessage(myName))]
    ensures r.Handled? && msg.code != WhoIsOnlineCode ==> r.replies == []
    // An unknown code does nothing at all.
    ensures !(1 <= msg.code <= 5) ==> r == Handled(s, [], [])
    // The history only grows, by at most one entry; the table never loses an entry.
    ensures r.Handled? ==> s.history <= r.state.history && |r.state.history| <= |s.history| + 1
    ensures r.Handled? ==> s.table.Keys <= r.state.table.Keys
  {
    if !(1 <= msg.code <= 5) then Handled(s, [], [])
    else match Decode(msg)
      case None => Dropped
      case Some(m) => Dispatch(s, now, stamp, myName, m, from)
  }

  /** The effect of one decoded message from `from`, by its kind. */
  function Dispatch(s: ChatState, now: int, stamp: string, myName: string, m: WireMsg, from: Addr): (r: Outcome)
    ensures !r.Dropped?
    ensures r.Crashed? <==> m.NewName? && IdOf(from) !in s.table
    ensures r.Handled? && m.WhoIsOnline? ==> r.replies == [Datagram(from, CreateIAmOnlineMessage(myName))]
    ensures r.Handled? && !m.WhoIsOnline? ==> r.replies == []
    ensures r.Handled? ==> s.history <= r.state.history && |r.state.history| <= |s.history| + 1
    ensures r.Handled? ==> s.table.Keys <= r.state.table.Keys
  {
    var id := IdOf(from);
    match m
    case WhoIsOnline(name) =>
      var (s1, events) := OnPresence(s, from, name, now);
      Handled(s1, [Datagram(from, CreateIAmOnlineMessage(myName))], events)
    case IAmOnline(name) =>
      var (s1, events) := OnPresence(s, from, name, now);
      Handled(s1, [], events)
    case ChatText(name, text) =>
      var logged := AddMessage(s.history, ChatMessage(id, text, stamp));
      Handled(ChatState(s.table, logged.log), [], logged.events)
    case NewName(name) =>
      if id !in s.table then Crashed
      else
        var oldName := GetNameOfParticipant(s.table, id);
        var u := ChangeName(s.table, id, name);
        var logged := AddMessage(s.history, NameChangeMessage(oldName, name));
        Handled(ChatState(u.table, logged.log), [], u.events + logged.events)
    case ChatLeft(name) =>
      var u := SetParticipantOffline(s.table, id, now);
      var logged := AddMessage(s.history, ChatLeftMessage(name));
      Handled(ChatState(u.table, logged.log), [], u.events + logged.events)
  }

  /** The table change of a handled datagram is one of the table operations:
      a join, a refresh, a rename or a leave, or none. So processing keeps
      the table's shape. */
  lemma ProcessKeepsWellFormed(s: ChatState, now: int, stamp: string, myName: string, msg: Packet, from: Addr)
    requires WellFormed(s.table)
    ensures var r := ProcessMessage(s, now, stamp, myName, msg, from);
      r.Handled? ==> WellFormed(r.state.table)
  {
    if 1 <= msg.code <= 5 && Decode(msg).Some? {
      DispatchKeepsWellFormed(s, now, stamp, myName, Decode(msg).value, from);
    }
  }

  /** Each kind of message changes the table by a join, a refresh, a rename,
      a leave or not at all. */
  lemma DispatchKeepsWellFormed(s: ChatState, now: int, stamp: string, myName: string, m: WireMsg, from: Addr)
    requires WellFormed(s.table)
    ensures var r := Dispatch(s, now, stamp, myName, m, from);
      r.Handled? ==> WellFormed(r.state.table)
  {
    var id := IdOf(from);
    match m
    case WhoIsOnline(name) => HearKeepsWellFormed(s.table, from, name, now);
    case IAmOnline(name) => HearKeepsWellFormed(s.table, from, name, now);
    case ChatText(_, _) =>
    case NewName(name) => ApplyKeepsEntries(s.table, Rename(id, name), now);
    case ChatLeft(_) => ApplyKeepsEntries(s.table, Offline(id), now);
  }

  /** The table side of a presence message is a join or a refresh, so it
      keeps the table's shape. */
  lemma HearKeepsWellFormed(t: Table, from: Addr, name: string, now: int)
    requires WellFormed(t)
    ensures WellFormed(Hear(t, from, name, now).table)
  {
    ApplyKeepsEntries(t, Join(name, from), now);
    HearIsJoin(t, from, name, now);
  }

  /** The table side of a presence message is the table operation `Join`. */
  lemma HearIsJoin(t: Table, from: Addr, name: string, now: int)
    ensures Hear(t, from, name, now).table == Apply(t, Join(name, from), now)
  {
  }

  /** Codes 1 and 2: the sender is present and online afterwards; a known
      sender keeps its stored name and colour; a join entry with the payload
      name is added exactly when the sender was unknown or offline. */
  lemma PresenceEffect(s: ChatState, now: int, stamp: string, myName: string, msg: Packet, from: Addr)
    requires msg.code == WhoIsOnlineCode || msg.code == IAmOnlineCode
    requires msg.name.Some?
    ensures var r := ProcessMessage(s, now, stamp, myName, msg, from);
      var id := IdOf(from);
      var joined := id !in s.table || !IsOnline(s.table[id], now);
      && r.Handled?
      && id in r.state.table && IsOnline(r.state.table[id], now)
      && (id in s.table ==>
            r.state.table[id].name == s.table[id].name && r.state.table[id].textColor == s.table[id].textColor)
      && (id !in s.table ==> r.state.table[id].name == msg.name.value)
      && (forall other :: other in s.table && other != id ==> r.state.table[other] == s.table[other])
      && r.state.history == s.history + (if joined then [NewParticipantMessage(msg.name.value)] else [])
      && r.events == [ListOfParticipantsChanged] + (if joined then [MessageReceived] else [])
  {
  }

  /** Code 3: one chat entry attributed to the sender's address id, with the
      payload text verbatim; the payload name is not used and the table is
      left alone. */
  lemma ChatEffect(s: ChatState, now: int, stamp: string, myName: string, msg: Packet, from: Addr)
    requires msg.code == ChatCode && msg.name.Some? && msg.text.Some?
    ensures var r := ProcessMessage(s, now, stamp, myName, msg, from);
      && r.Handled?
      && r.state.table == s.table
      && r.state.history == s.history + [ChatMessage(IdOf(from), msg.text.value, stamp)]
      && r.events == [MessageReceived]
  {
    assert Decode(msg) == Some(ChatText(msg.name.value, msg.text.value));
  }

  /** Code 4 from a known sender: only its stored name changes, and the
      entry records the old stored name and the new one. */
  lemma NewNameEffect(s: ChatState, now: int, stamp: string, myName: string, msg: Packet, from: Addr)
    requires msg.code == NewNameCode && msg.name.Some? && IdOf(from) in s.table
    ensures var r := ProcessMessage(s, now, stamp, myName, msg, from);
      var id := IdOf(from);
      && r.Handled?
      && r.state.table.Keys == s.table.Keys
      && r.state.table[id] == s.table[id].(name := msg.name.value)
      && (forall other :: other in s.table && other != id ==> r.state.table[other] == s.table[other])
      && r.state.history == s.history + [NameChangeMessage(s.table[id].name, msg.name.value)]
      && r.events == [ListOfParticipantsChanged, NameChanged, MessageReceived]
  {
    assert Decode(msg) == Some(NewName(msg.name.value));
  }

  /** Code 5: the sender, if known, is offline from now on; the entry carries
      the payload name, not the stored one; the notifications are the same
      whether or not the sender was known. */
  lemma ChatLeftEffect(s: ChatState, now: int, stamp: string, myName: string, msg: Packet, from: Addr)
    requires msg.code == ChatLeftCode && msg.name.Some?
    ensures var r := ProcessMessage(s, now, stamp, myName, msg, from);
      var id := IdOf(from);
      && r.Handled?
      && r.state.table.Keys == s.table.Keys
      && (id in s.table ==> forall later :: later >= now ==> !IsOnline(r.state.table[id], later))
      && (id !in s.table ==> r.state.table == s.table)
      && (forall other :: other in s.table && other != id ==> r.state.table[other] == s.table[other])
      && r.state.history == s.history + [ChatLeftMessage(msg.name.value)]
      && r.events == [ListOfParticipantsChanged, MessageReceived]
  {
    assert Decode(msg) == Some(ChatLeft(msg.name.value));
  }

  /** A history that could be rendered still can after a datagram, unless
      the datagram is a chat line from a peer not in the table. */
  lemma ProcessKeepsRenderable(s: ChatState, now: int, stamp: string, myName: string, msg: Packet, from: Addr)
    requires AllRenderable(s.history, s.table)
    requires msg.code == ChatCode ==> IdOf(from) in s.table
    ensures var r := ProcessMessage(s, now, stamp, myName, msg, from);
      r.Handled? ==> AllRenderable(r.state.history, r.state.table)
  {
    var r := ProcessMessage(s, now, stamp, myName, msg, from);
    if r.Handled? && 1 <= msg.code <= 5 {
      var h := r.state.history;
      forall i | 0 <= i < |h| ensures Renderable(h[i], r.state.table) {
        if i < |s.history| {
          assert h[i] == s.history[i];
        }
      }
    }
  }

  /** A chat line from a peer that never announced itself is stored under
      an author the table does not know, so the history can no longer be
      rendered. */
  lemma ChatFromStrangerUnrenderable(s: ChatState, now: int, stamp: string, myName: string, msg: Packet, from: Addr)
    requires msg.code == ChatCode && msg.name.Some? && msg.text.Some?
    requires IdOf(from) !in s.table
    ensures var r := ProcessMessage(s, now, stamp, myName, msg, from);
      r.Handled? && !AllRenderable(r.state.history, r.state.table)
  {
    ChatEffect(s, now, stamp, myName, msg, from);
    var r := ProcessMessage(s, now, stamp, myName, msg, from);
    assert !Renderable(r.state.history[|s.history|], r.state.table);
  }

  // ---------------------------------------------------------------------
  // The receive loop

  /** One datagram as it arrived: the clock value and printed time at
      arrival, the payload and the sender's address. */
  datatype Arrival = Arrival(now: int, stamp: string, packet: Packet, from: Addr)

  /** The state after a stretch of arrivals, and whether the receive loop is
      still running. */
  datatype Run = Run(state: ChatState, live: bool)

  /** The receive loop over `arrivals` in order: a skipped datagram changes
      nothing, and a failed lookup ends the loop with the state it had. */
  function Receive(s: ChatState, myName: string, arrivals: seq<Arrival>): (run: Run)
    ensures s.history <= run.state.history
    ensures s.table.Keys <= run.state.table.Keys
    ensures !run.live ==> exists i :: 0 <= i < |arrivals| && arrivals[i].packet.code == NewNameCode
    decreases |arrivals|
  {
    if arrivals == [] then Run(s, true)
    else
      var a := arrivals[0];
      match ProcessMessage(s, a.now, a.stamp, myName, a.packet, a.from)
      case Handled(s1, _, _) =>
        var rest := Receive(s1, myName, arrivals[1..]);
        NotLiveWitness(myName, arrivals, rest);
        rest
      case Dropped =>
        var rest := Receive(s, myName, arrivals[1..]);
        NotLiveWitness(myName, arrivals, rest);
        rest
      case Crashed => Run(s, false)
  }

  /** Over any stretch of arrivals the table keeps its shape and every
      entry, and the history only grows; the loop ends only on a rename from
      a peer not in the table. */
  lemma {:induction false} ReceiveInvariants(s: ChatState, myName: string, arrivals: seq<Arrival>)
    requires WellFormed(s.table)
    ensures var run := Receive(s, myName, arrivals);
      && WellFormed(run.state.table)
      && s.table.Keys <= run.state.table.Keys
      && s.history <= run.state.history
      && (!run.live ==> exists i :: 0 <= i < |arrivals| && arrivals[i].packet.code == NewNameCode)
    decreases |arrivals|
  {
    if arrivals != [] {
      var a := arrivals[0];
      var r := ProcessMessage(s, a.now, a.stamp, myName, a.packet, a.from);
      ProcessKeepsWellFormed(s, a.now, a.stamp, myName, a.packet, a.from);
      match r
      case Handled(s1, _, _) =>
        ReceiveInvariants(s1, myName, arrivals[1..]);
        NotLiveWitness(myName, arrivals, Receive(s1, myName, arrivals[1..]));
      case Dropped =>
        ReceiveInvariants(s, myName, arrivals[1..]);
        NotLiveWitness(myName, arrivals, Receive(s, myName, arrivals[1..]));
      case Crashed =>
    }
  }

  /** A code 4 found among the later arrivals is one among all arrivals. */
  lemma NotLiveWitness(myName: string, arrivals: seq<Arrival>, rest: Run)
    requires arrivals != []
    requires !rest.live ==> exists i :: 0 <= i < |arrivals[1..]| && arrivals[1..][i].packet.code == NewNameCode
    ensures !rest.live ==> exists i :: 0 <= i < |arrivals| && arrivals[i].packet.code == NewNameCode
  {
    if !rest.live {
      var i :| 0 <= i < |arrivals[1..]| && arrivals[1..][i].packet.code == NewNameCode;
      assert arrivals[i + 1].packet.code == NewNameCode;
    }
  }

  /** The table operations a decoded message from `from` performs: a
      presence message joins or refreshes the sender, a rename renames it
      and a leave notice marks it offline; a chat line touches no entry. */
  function MessageSteps(m: WireMsg, from: Addr, now: int): seq<Step>
  {
    match m
    case WhoIsOnline(n) => [Step(Join(n, from), now)]
    case IAmOnline(n) => [Step(Join(n, from), now)]
    case ChatText(_, _) => []
    case NewName(n) => [Step(Rename(IdOf(from), n), now)]
    case ChatLeft(_) => [Step(Offline(IdOf(from)), now)]
  }

  /** The table operations one datagram performs when it is handled; an
      unknown code touches no entry. */
  function TableSteps(a: Arrival): seq<Step>
  {
    if !(1 <= a.packet.code <= 5) then []
    else match Decode(a.packet)
      case None => []
      case Some(m) => MessageSteps(m, a.from, a.now)
  }

  /** A handled message changes the table by exactly its table operations. */
  lemma DispatchIsTableSteps(s: ChatState, now: int, stamp: string, myName: string, m: WireMsg, from: Addr)
    ensures var r := Dispatch(s, now, stamp, myName, m, from);
      r.Handled? ==> r.state.table == ApplyAll(s.table, MessageSteps(m, from, now))
  {
    var r := Dispatch(s, now, stamp, myName, m, from);
    var id := IdOf(from);
    match m
    case WhoIsOnline(n) =>
      HearIsJoin(s.table, from, n, now);
      ApplyAllSingle(s.table, Step(Join(n, from), now));
      assert r.state.table == Hear(s.table, from, n, now).table;
    case IAmOnline(n) =>
      HearIsJoin(s.table, from, n, now);
      ApplyAllSingle(s.table, Step(Join(n, from), now));
      assert r.state.table == Hear(s.table, from, n, now).table;
    case ChatText(_, _) =>
      assert r.state.table == s.table;
    case NewName(n) =>
      if id in s.table {
        ApplyAllSingle(s.table, Step(Rename(id, n), now));
        assert r.state.table == ChangeName(s.table, id, n).table;
      }
    case ChatLeft(_) =>
      ApplyAllSingle(s.table, Step(Offline(id), now));
      assert r.state.table == SetParticipantOffline(s.table, id, now).table;
  }

  /** A handled datagram changes the table by exactly its table operations. */
  lemma ProcessIsTableSteps(s: ChatState, myName: string, a: Arrival)
    ensures var r := ProcessMessage(s, a.now, a.stamp, myName, a.packet, a.from);
      r.Handled? ==> r.state.table == ApplyAll(s.table, TableSteps(a))
  {
    if 1 <= a.packet.code <= 5 && Decode(a.packet).Some? {
      DispatchIsTableSteps(s, a.now, a.stamp, myName, Decode(a.packet).value, a.from);
    }
  }

  /** The table operations the receive loop performs over `arrivals`, up to
      the datagram that ends it. */
  function ReceiveSteps(s: ChatState, myName: string, arrivals: seq<Arrival>): seq<Step>
    decreases |arrivals|
  {
    if arrivals == [] then []
    else
      var a := arrivals[0];
      match ProcessMessage(s, a.now, a.stamp, myName, a.packet, a.from)
      case Handled(s1, _, _) => TableSteps(a) + ReceiveSteps(s1, myName, arrivals[1..])
      case Dropped => ReceiveSteps(s, myName, arrivals[1..])
      case Crashed => []
  }

  /** The loop's table is its starting table with the loop's table
      operations applied in arrival order. */
  lemma {:induction false} ReceiveIsTableSteps(s: ChatState, myName: string, arrivals: seq<Arrival>)
    ensures Receive(s, myName, arrivals).state.table == ApplyAll(s.table, ReceiveSteps(s, myName, arrivals))
    decreases |arrivals|
  {
    if arrivals != [] {
      var a := arrivals[0];
      match ProcessMessage(s, a.now, a.stamp, myName, a.packet, a.from)
      case Handled(s1, _, _) =>
        ProcessIsTableSteps(s, myName, a);
        ReceiveIsTableSteps(s1, myName, arrivals[1..]);
        ApplyAllAppend(s.table, TableSteps(a), ReceiveSteps(s1, myName, arrivals[1..]));
      case Dropped =>
        ReceiveIsTableSteps(s, myName, arrivals[1..]);
      case Crashed =>
    }
  }

  // ---------------------------------------------------------------------
  // Outgoing messages

  /** `out` sends `packet` exactly once to every peer that is online, and to
      nobody else. */
  ghost predicate SendsToEachOnlinePeerOnce(out: seq<Datagram>, t: Table, now: int, packet: Packet)
  {
    && (forall i :: 0 <= i < |out| ==>
          out[i].packet == packet && IdOf(out[i].to) in t && IsOnline(t[IdOf(out[i].to)], now))
    && (forall i, j :: 0 <= i < j < |out| ==> out[i].to != out[j].to)
    && (forall id :: id in t && IsOnline(t[id], now) ==>
          exists i :: 0 <= i < |out| && out[i].to == t[id].addr)
  }

  /** Sends `packet` to each participant of the online snapshot that is still
      online when its turn comes. */
  method FanOut(t: Table, now: int, packet: Packet) returns (out: seq<Datagram>)
    requires WellFormed(t)
    ensures SendsToEachOnlinePeerOnce(out, t, now, packet)
  {
    var ps := GetParticipants(t, now);
    out := [];
    var k := 0;
    while k < |ps|
      invariant 0 <= k <= |ps|
      invariant |out| == k
      invariant forall i :: 0 <= i < k ==> out[i] == Datagram(ps[i].addr, packet)
    {
      var receiver := ps[k];
      if IsOnline(receiver, now) {
        out := out + [Datagram(receiver.addr, packet)];
      }
      k := k + 1;
    }
    FanOutCovers(out, ps, t, now, packet);
  }

  /** One datagram per entry of an online snapshot is one per online peer. */
  lemma FanOutCovers(out: seq<Datagram>, ps: seq<Participant>, t: Table, now: int, packet: Packet)
    requires WellFormed(t) && EnumeratesOnline(ps, t, now)
    requires |out| == |ps| && forall i :: 0 <= i < |ps| ==> out[i] == Datagram(ps[i].addr, packet)
    ensures SendsToEachOnlinePeerOnce(out, t, now, packet)
  {
    forall i | 0 <= i < |out|
      ensures IdOf(out[i].to) in t && IsOnline(t[IdOf(out[i].to)], now)
    {
      assert ps[i].id in t && t[ps[i].id] == ps[i];
    }
    forall i, j | 0 <= i < j < |out| ensures out[i].to != out[j].to {
      assert ps[i].id in t && t[ps[i].id] == ps[i];
      assert ps[j].id in t && t[ps[j].id] == ps[j];
    }
    forall id | id in t && IsOnline(t[id], now)
      ensures exists i :: 0 <= i < |out| && out[i].to == t[id].addr
    {
      var i :| 0 <= i < |ps| && ps[i].id == id;
      assert out[i].to == t[id].addr;
    }
  }

  /** A chat line to every online peer. */
  method SendMessage(t: Table, now: int, myName: string, text: string) returns (out: seq<Datagram>)
    requires WellFormed(t)
    ensures SendsToEachOnlinePeerOnce(out, t, now, CreateChatMessage(myName, text))
  {
    out := FanOut(t, now, CreateChatMessage(myName, text));
  }

  /** The new name to every online peer. */
  method ChangeMyName(t: Table, now: int, newName: string) returns (out: seq<Datagram>)
    requires WellFormed(t)
    ensures SendsToEachOnlinePeerOnce(out, t, now, CreateNewNameMessage(newName))
  {
    out := FanOut(t, now, CreateNewNameMessage(newName));
  }

  /** The leave notice to every online peer. */
  method LeaveChat(t: Table, now: int, myName: string) returns (out: seq<Datagram>)
    requires WellFormed(t)
    ensures SendsToEachOnlinePeerOnce(out, t, now, CreateChatLeftMessage(myName))
  {
    out := FanOut(t, now, CreateChatLeftMessage(myName));
  }
}
