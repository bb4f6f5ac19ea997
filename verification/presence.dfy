/** The presence table: one record per peer ever heard from, keyed by the id
    derived from its address. Liveness is not stored; it is a function of the
    clock and the time of the peer's last signal. Entries are never removed. */
module Presence {
  import opened Base

  /** NOT_ALIVE_INTERVAL (70 s) in milliseconds. */
  const NotAliveMillis: int := 70 * 1000

  /** The text colours handed out to peers in the order they are first seen. */
  const Palette: seq<string> := ["0000FF", "FF0000", "00FF00", "FF00FF", "00FFFF", "FFFF00"]

  /** A chat participant. `lastSignal` is the clock value, in ms, of the last
      alive signal. */
  datatype Participant = Participant(id: string, name: string, addr: Addr, lastSignal: int, textColor: string)

  /** Whether `p` counts as online at clock value `now`: it is offline once
      more than NotAliveMillis have elapsed since its last signal. */
  predicate IsOnline(p: Participant, now: int)
  {
    now - p.lastSignal <= NotAliveMillis
  }

  /** The liveness rule in words: online iff the age of the last signal is at
      most 70 000 ms. The boundary is inclusive: a signal exactly 70 000 ms
      old still counts, one 70 001 ms old does not. */
  lemma OnlineWithinInterval(p: Participant, now: int)
    ensures IsOnline(p, now) <==> now - p.lastSignal <= 70000
    ensures now - p.lastSignal == 70000 ==> IsOnline(p, now)
    ensures now - p.lastSignal == 70001 ==> !IsOnline(p, now)
    ensures now == p.lastSignal ==> IsOnline(p, now)
  {
  }

  /** The constructor: a new participant's last signal is its creation time. */
  function NewParticipant(id: string, name: string, addr: Addr, textColor: string, now: int): (p: Participant)
    ensures IsOnline(p, now)
    ensures p.id == id && p.name == name && p.addr == addr && p.textColor == textColor
  {
    Participant(id, name, addr, now, textColor)
  }

  /** Refreshes the alive signal. */
  function SetOnline(p: Participant, now: int): (q: Participant)
    ensures forall t :: now <= t <= now + NotAliveMillis ==> IsOnline(q, t)
    ensures q.id == p.id && q.name == p.name && q.addr == p.addr && q.textColor == p.textColor
    ensures q.lastSignal == now
  {
    p.(lastSignal := now)
  }

  /** Moves the alive signal into the past: twice the interval before `now`. */
  function SetOffline(p: Participant, now: int): (q: Participant)
    ensures forall t :: t >= now ==> !IsOnline(q, t)
    ensures q.id == p.id && q.name == p.name && q.addr == p.addr && q.textColor == p.textColor
  {
    p.(lastSignal := now - 2 * NotAliveMillis)
  }

  /** Marking a participant offline a second time does not change its
      liveness at any later moment. */
  lemma SetOfflineIdempotent(p: Participant, t1: int, t2: int, t: int)
    requires t1 <= t2 <= t
    ensures IsOnline(SetOffline(SetOffline(p, t1), t2), t) == IsOnline(SetOffline(p, t1), t)
  {
  }

  /** Renames a participant; everything else about it stays. */
  function SetName(p: Participant, name: string): (q: Participant)
    ensures q.name == name
    ensures q.id == p.id && q.addr == p.addr && q.textColor == p.textColor && q.lastSignal == p.lastSignal
  {
    p.(name := name)
  }

  // ---------------------------------------------------------------------
  // The participant list

  type Table = map<string, Participant>

  /** A table operation's result: the new table and the notifications it sent. */
  datatype Updated = Updated(table: Table, events: seq<Notification>)

  /** The shape every table the program builds has: each entry is stored
      under its own id, and that id is derived from its address. */
  ghost predicate WellFormed(t: Table)
  {
    forall id :: id in t ==> t[id].id == id && IdOf(t[id].addr) == id
  }

  /** The colour the n-th peer ever seen gets (counting from 0): the first
      six peers get the palette in order, and every later peer the colour of
      the peer six places before it. */
  function ColorFor(n: nat): string
  {
    if n < |Palette| then Palette[n] else ColorFor(n - |Palette|)
  }

  /** Picking by the remainder modulo the palette size walks the palette
      cyclically. */
  lemma {:induction false} ColorForIsRemainder(n: nat)
    ensures Palette[n % |Palette|] == ColorFor(n)
  {
    if n >= |Palette| {
      ColorForIsRemainder(n - |Palette|);
      assert (n - 6) % 6 == n % 6;
    }
  }

  /** A new participant whose colour is picked by the number of entries
      already in the table, cycling through the six palette colours. */
  function CreateNewParticipant(t: Table, id: string, name: string, addr: Addr, now: int): (p: Participant)
    ensures p.textColor == Palette[|t| % |Palette|] == ColorFor(|t|)
    ensures p.id == id && p.name == name && p.addr == addr && IsOnline(p, now)
  {
    ColorForIsRemainder(|t|);
    NewParticipant(id, name, addr, ColorFor(|t|), now)
  }

  /** Whether a participant is stored under `id`. */
  predicate ContainsParticipant(t: Table, id: string): (b: bool)
    ensures b <==> id in t.Keys
  {
    id in t
  }

  /** Stores `p` under its id (replacing an entry with the same id). */
  function AddParticipant(t: Table, p: Participant): (u: Updated)
    ensures ContainsParticipant(u.table, p.id) && u.table[p.id] == p
    ensures u.table.Keys == t.Keys + {p.id}
    ensures forall id :: id in t && id != p.id ==> u.table[id] == t[id]
    ensures u.events == [ListOfParticipantsChanged]
  {
    Updated(t[p.id := p], [ListOfParticipantsChanged])
  }

  /** Liveness of a stored participant; the id must be known. */
  predicate IsOnlineId(t: Table, id: string, now: int)
    requires id in t
  {
    IsOnline(t[id], now)
  }

  /** Refreshes a known participant's alive signal. */
  function SetParticipantOnline(t: Table, id: string, now: int): (u: Updated)
    requires id in t
    ensures u.table.Keys == t.Keys
    ensures IsOnline(u.table[id], now)
    ensures u.table[id].name == t[id].name && u.table[id].textColor == t[id].textColor
    ensures u.table[id].addr == t[id].addr && u.table[id].id == t[id].id
    ensures u.table[id] == t[id].(lastSignal := now)
    ensures forall s :: now <= s <= now + NotAliveMillis ==> IsOnline(u.table[id], s)
    ensures forall other :: other in t && other != id ==> u.table[other] == t[other]
    ensures u.events == [ListOfParticipantsChanged]
  {
    Updated(t[id := SetOnline(t[id], now)], [ListOfParticipantsChanged])
  }

  /** Marks a participant offline; an unknown id leaves the table as it is,
      but observers are told the list changed either way. */
  function SetParticipantOffline(t: Table, id: string, now: int): (u: Updated)
    ensures u.table.Keys == t.Keys
    ensures id in t ==> forall s :: s >= now ==> !IsOnline(u.table[id], s)
    ensures id in t ==> u.table[id].name == t[id].name && u.table[id].textColor == t[id].textColor
    ensures id in t ==> u.table[id].addr == t[id].addr && u.table[id].id == t[id].id
    ensures forall other :: other in t && other != id ==> u.table[other] == t[other]
    ensures id !in t ==> u.table == t
    ensures u.events == [ListOfParticipantsChanged]
  {
    var table := if id in t then t[id := SetOffline(t[id], now)] else t;
    Updated(table, [ListOfParticipantsChanged])
  }

  /** Renames a known participant and announces it; an unknown id is ignored
      without any notification. */
  function ChangeName(t: Table, id: string, newName: string): (u: Updated)
    ensures u.table.Keys == t.Keys
    ensures id in t ==> u.table[id].name == newName
    ensures id in t ==> u.table[id].textColor == t[id].textColor && u.table[id].lastSignal == t[id].lastSignal
    ensures id in t ==> u.table[id].addr == t[id].addr && u.table[id].id == t[id].id
    ensures forall other :: other in t && other != id ==> u.table[other] == t[other]
    ensures id in t ==> u.events == [ListOfParticipantsChanged, NameChanged]
    ensures id !in t ==> u.table == t && u.events == []
  {
    if id in t then
      Updated(t[id := SetName(t[id], newName)], [ListOfParticipantsChanged, NameChanged])
    else
      Updated(t, [])
  }

  /** The stored name; a direct lookup, so the id must be known. */
  function GetNameOfParticipant(t: Table, id: string): (name: string)
    requires ContainsParticipant(t, id)
    ensures name == t[id].name
  {
    t[id].name
  }

  /** The stored colour; a direct lookup, so the id must be known. */
  function GetTextColorOfParticipant(t: Table, id: string): (color: string)
    requires ContainsParticipant(t, id)
    ensures color == t[id].textColor
  {
    t[id].textColor
  }

  /** What the lookups answer after each table change: an added peer is
      found with its own name and colour; a rename changes only the name the
      lookup gives; refreshing and marking offline change neither; and no
      change makes a known id unknown. */
  lemma LookupsAfterUpdates(t: Table, p: Participant, id: string, newName: string, now: int)
    ensures var u := AddParticipant(t, p).table;
      ContainsParticipant(u, p.id) && GetNameOfParticipant(u, p.id) == p.name
      && GetTextColorOfParticipant(u, p.id) == p.textColor
    ensures ContainsParticipant(t, id) ==>
      var u := ChangeName(t, id, newName).table;
      ContainsParticipant(u, id) && GetNameOfParticipant(u, id) == newName
      && GetTextColorOfParticipant(u, id) == GetTextColorOfParticipant(t, id)
    ensures ContainsParticipant(t, id) ==>
      var u := SetParticipantOnline(t, id, now).table;
      ContainsParticipant(u, id) && GetNameOfParticipant(u, id) == GetNameOfParticipant(t, id)
      && GetTextColorOfParticipant(u, id) == GetTextColorOfParticipant(t, id)
    ensures ContainsParticipant(t, id) ==>
      var u := SetParticipantOffline(t, id, now).table;
      ContainsParticipant(u, id) && GetNameOfParticipant(u, id) == GetNameOfParticipant(t, id)
      && GetTextColorOfParticipant(u, id) == GetTextColorOfParticipant(t, id)
  {
  }

  /** Marks every participant offline and notifies once. */
  function SetAllParticipantsOffline(t: Table, now: int): (u: Updated)
    ensures u.table.Keys == t.Keys && |u.table| == |t|
    ensures forall id, s :: id in u.table && s >= now ==> !IsOnline(u.table[id], s)
    ensures forall id :: id in t ==> u.table[id].name == t[id].name && u.table[id].textColor == t[id].textColor
    ensures forall id :: id in t ==> u.table[id].addr == t[id].addr && u.table[id].id == t[id].id
    ensures u.events == [ListOfParticipantsChanged]
  {
    var table := map id | id in t :: SetOffline(t[id], now);
    assert table.Keys == t.Keys;
    Updated(table, [ListOfParticipantsChanged])
  }

  // ---------------------------------------------------------------------
  // Snapshots of the online participants

  /** `ps` lists every participant online at `now` exactly once, in some order. */
  ghost predicate EnumeratesOnline(ps: seq<Participant>, t: Table, now: int)
  {
    && (forall i :: 0 <= i < |ps| ==> ps[i].id in t && t[ps[i].id] == ps[i] && IsOnline(ps[i], now))
    && (forall i, j :: 0 <= i < j < |ps| ==> ps[i].id != ps[j].id)
    && (forall id :: id in t && IsOnline(t[id], now) ==> t[id] in ps)
  }

  /** The online participants, collected by walking the keys in an
      unspecified order. */
  method GetParticipants(t: Table, now: int) returns (ps: seq<Participant>)
    requires WellFormed(t)
    ensures EnumeratesOnline(ps, t, now)
  {
    ps := [];
    var rest := t.Keys;
    while rest != {}
      invariant rest <= t.Keys
      invariant forall i :: 0 <= i < |ps| ==> ps[i].id in t && ps[i].id !in rest && t[ps[i].id] == ps[i] && IsOnline(ps[i], now)
      invariant forall i, j :: 0 <= i < j < |ps| ==> ps[i].id != ps[j].id
      invariant forall id :: id in t && id !in rest && IsOnline(t[id], now) ==> t[id] in ps
      decreases rest
    {
      var id :| id in rest;
      if IsOnline(t[id], now) {
        ps := ps + [t[id]];
      }
      rest := rest - {id};
    }
  }

  function NamesOf(ps: seq<Participant>): (names: seq<string>)
    ensures |names| == |ps|
    ensures forall i :: 0 <= i < |ps| ==> names[i] == ps[i].name
  {
    if ps == [] then [] else [ps[0].name] + NamesOf(ps[1..])
  }

  /** The names of the online participants, one per online entry, in the
      order of some enumeration of them. */
  method GetParticipantNames(t: Table, now: int) returns (names: seq<string>)
    requires WellFormed(t)
    ensures exists ps :: EnumeratesOnline(ps, t, now) && names == NamesOf(ps)
  {
    names := [];
    ghost var ps: seq<Participant> := [];
    var rest := t.Keys;
    while rest != {}
      invariant rest <= t.Keys
      invariant |names| == |ps| && forall i :: 0 <= i < |ps| ==> names[i] == ps[i].name
      invariant forall i :: 0 <= i < |ps| ==> ps[i].id in t && ps[i].id !in rest && t[ps[i].id] == ps[i] && IsOnline(ps[i], now)
      invariant forall i, j :: 0 <= i < j < |ps| ==> ps[i].id != ps[j].id
      invariant forall id :: id in t && id !in rest && IsOnline(t[id], now) ==> t[id] in ps
      decreases rest
    {
      var id :| id in rest;
      if IsOnline(t[id], now) {
        names := names + [t[id].name];
        ps := ps + [t[id]];
      }
      rest := rest - {id};
    }
    assert EnumeratesOnline(ps, t, now) && names == NamesOf(ps);
  }

  // ---------------------------------------------------------------------
  // Histories of table operations

  /** Every way the program changes the table. `Join` is what a presence
      message does: a peer heard from for the first time is created and
      added, a known one is only refreshed. */
  datatype TableOp =
    | Join(name: string, addr: Addr)
    | Online(id: string)
    | Offline(id: string)
    | Rename(id: string, newName: string)
    | AllOffline

  /** An operation together with the clock value it runs at. */
  datatype Step = Step(op: TableOp, now: int)

  /** The table after a peer heard from for the first time joined. */
  function Joined(t: Table, a: Addr, name: string, now: int): Table
  {
    AddParticipant(t, CreateNewParticipant(t, IdOf(a), name, a, now)).table
  }

  /** One table operation. The program refreshes an entry only after finding
      it in the table, so `Online` is never issued for an unknown id; the
      model lets such a call change nothing. */
  function Apply(t: Table, op: TableOp, now: int): Table
  {
    match op
    case Join(name, addr) =>
      if IdOf(addr) in t then SetParticipantOnline(t, IdOf(addr), now).table else Joined(t, addr, name, now)
    case Online(id) => if id in t then SetParticipantOnline(t, id, now).table else t
    case Offline(id) => SetParticipantOffline(t, id, now).table
    case Rename(id, n) => ChangeName(t, id, n).table
    case AllOffline => SetAllParticipantsOffline(t, now).table
  }

  /** The operations of `steps`, in order, each at its own clock value. */
  function ApplyAll(t: Table, steps: seq<Step>): Table
    decreases |steps|
  {
    if steps == [] then t else ApplyAll(Apply(t, steps[0].op, steps[0].now), steps[1..])
  }

  /** One operation keeps every entry's key and the table's shape. */
  lemma ApplyKeepsEntries(t: Table, op: TableOp, now: int)
    requires WellFormed(t)
    ensures t.Keys <= Apply(t, op, now).Keys
    ensures WellFormed(Apply(t, op, now))
  {
    match op
    case Join(name, addr) =>
      if IdOf(addr) !in t {
        var p := CreateNewParticipant(t, IdOf(addr), name, addr, now);
        assert p.id == IdOf(p.addr);
      }
    case Online(id) =>
    case Offline(id) =>
    case Rename(id, n) =>
    case AllOffline =>
  }

  /** A sequence of one operation is that operation. */
  lemma ApplyAllSingle(t: Table, st: Step)
    ensures ApplyAll(t, [st]) == Apply(t, st.op, st.now)
  {
    assert [st][1..] == [];
  }

  /** No sequence of operations removes an entry or breaks the table's
      shape; so the number of entries never decreases. */
  lemma {:induction false} ApplyAllKeepsEntries(t: Table, steps: seq<Step>)
    requires WellFormed(t)
    ensures t.Keys <= ApplyAll(t, steps).Keys
    ensures |t| <= |ApplyAll(t, steps)|
    ensures WellFormed(ApplyAll(t, steps))
    decreases |steps|
  {
    if steps != [] {
      var t1 := Apply(t, steps[0].op, steps[0].now);
      ApplyKeepsEntries(t, steps[0].op, steps[0].now);
      ApplyAllKeepsEntries(t1, steps[1..]);
      var r := ApplyAll(t1, steps[1..]);
      assert r == ApplyAll(t, steps);
      SubsetCardinality(t.Keys, r.Keys);
    } else {
      SubsetCardinality(t.Keys, t.Keys);
    }
  }

  lemma SubsetCardinality<T>(a: set<T>, b: set<T>)
    requires a <= b
    ensures |a| <= |b|
  {
    if a != {} {
      var x :| x in a;
      SubsetCardinality(a - {x}, b - {x});
    }
  }

  /** Running two stretches of operations one after the other. */
  lemma {:induction false} ApplyAllAppend(t: Table, a: seq<Step>, b: seq<Step>)
    ensures ApplyAll(t, a + b) == ApplyAll(ApplyAll(t, a), b)
    ensures Joiners(t, a + b) == Joiners(t, a) + Joiners(ApplyAll(t, a), b)
    decreases |a|
  {
    if a == [] {
      assert a + b == b;
    } else {
      var t1 := Apply(t, a[0].op, a[0].now);
      var h := if AddsEntry(t, a[0].op) then [IdOf(a[0].op.addr)] else [];
      assert (a + b)[0] == a[0];
      assert (a + b)[1..] == a[1..] + b;
      ApplyAllAppend(t1, a[1..], b);
      assert Joiners(t, a + b) == h + Joiners(t1, a[1..] + b);
      assert Joiners(t, a) == h + Joiners(t1, a[1..]);
      assert ApplyAll(t, a) == ApplyAll(t1, a[1..]);
    }
  }

  // ---------------------------------------------------------------------
  // Colour cycling

  /** Whether `op` adds an entry to `t`: a join from an address not stored. */
  predicate AddsEntry(t: Table, op: TableOp)
  {
    op.Join? && IdOf(op.addr) !in t
  }

  /** The ids of the peers seen for the first time over `steps`, in the
      order in which they were added. */
  function Joiners(t: Table, steps: seq<Step>): seq<string>
    decreases |steps|
  {
    if steps == [] then []
    else
      (if AddsEntry(t, steps[0].op) then [IdOf(steps[0].op.addr)] else [])
      + Joiners(Apply(t, steps[0].op, steps[0].now), steps[1..])
  }

  /** One fresh peer joins: it gets the colour picked by the table's size,
      and nothing already stored changes. */
  lemma JoinStep(t: Table, a: Addr, name: string, now: int)
    requires IdOf(a) !in t
    ensures var t1 := Apply(t, Join(name, a), now);
      && t1.Keys == t.Keys + {IdOf(a)}
      && |t1| == |t| + 1
      && t1[IdOf(a)].textColor == ColorFor(|t|)
      && forall id :: id in t ==> t1[id] == t[id]
  {
  }

  /** One operation adds an entry exactly when it is a join from a new
      address, that entry gets the colour for the table's size, and no
      operation changes the colour of an entry already stored. */
  lemma ApplyKeepsColors(t: Table, op: TableOp, now: int)
    ensures |Apply(t, op, now)| == |t| + (if AddsEntry(t, op) then 1 else 0)
    ensures forall id :: id in t ==> id in Apply(t, op, now) && Apply(t, op, now)[id].textColor == t[id].textColor
    ensures AddsEntry(t, op) ==>
      IdOf(op.addr) in Apply(t, op, now) && Apply(t, op, now)[IdOf(op.addr)].textColor == ColorFor(|t|)
  {
    var r := Apply(t, op, now);
    if AddsEntry(t, op) {
      JoinStep(t, op.addr, op.name, now);
    } else {
      assert r.Keys == t.Keys;
    }
  }

  /** Over any sequence of operations, the table grows by one entry per
      peer seen for the first time, and every stored colour stays. */
  lemma {:induction false} ApplyAllKeepsColors(t: Table, steps: seq<Step>)
    ensures |ApplyAll(t, steps)| == |t| + |Joiners(t, steps)|
    ensures forall id :: id in t ==> id in ApplyAll(t, steps) && ApplyAll(t, steps)[id].textColor == t[id].textColor
    decreases |steps|
  {
    if steps != [] {
      var t1 := Apply(t, steps[0].op, steps[0].now);
      ApplyKeepsColors(t, steps[0].op, steps[0].now);
      ApplyAllKeepsColors(t1, steps[1..]);
    }
  }

  /** The ids `js` are stored in `r`, and the k-th of them carries the
      colour of the (n + k)-th peer ever seen. */
  ghost predicate ColoredFrom(r: Table, js: seq<string>, n: nat)
  {
    forall k :: 0 <= k < |js| ==> js[k] in r && r[js[k]].textColor == ColorFor(n + k)
  }

  /** Putting one peer with the colour of the n-th in front of a run
      coloured from n + 1 gives a run coloured from n. */
  lemma ColoredPrepend(r: Table, id: string, js: seq<string>, n: nat)
    requires id in r && r[id].textColor == ColorFor(n)
    requires ColoredFrom(r, js, n + 1)
    ensures ColoredFrom(r, [id] + js, n)
  {
    var ks := [id] + js;
    forall k | 0 < k < |ks|
      ensures ks[k] in r && r[ks[k]].textColor == ColorFor(n + k)
    {
      assert ks[k] == js[k - 1];
      assert n + k == (n + 1) + (k - 1);
    }
  }

  /** One step of the induction below, stated over plain tables: `t1` is
      the table after one operation, which added the ids `h` (none or one),
      and `r` the table after the rest, which added the ids `js`. */
  lemma ColoredStep(t: Table, t1: Table, r: Table, h: seq<string>, js: seq<string>)
    requires |h| <= 1 && |t1| == |t| + |h|
    requires h != [] ==> h[0] in t1 && t1[h[0]].textColor == ColorFor(|t|)
    requires forall id :: id in t1 ==> id in r && r[id].textColor == t1[id].textColor
    requires ColoredFrom(r, js, |t1|)
    ensures ColoredFrom(r, h + js, |t|)
  {
    if h == [] {
      assert h + js == js;
    } else {
      assert h == [h[0]];
      ColoredPrepend(r, h[0], js, |t|);
    }
  }

  /** The colour a peer keeps is decided by how many peers were seen for the
      first time before it, whatever refreshes, leaves, renames and offline
      marks came in between: the k-th new peer gets the palette entry at
      (entries at the start + k) mod 6. */
  lemma {:induction false} JoinOrderColors(t: Table, steps: seq<Step>)
    ensures ColoredFrom(ApplyAll(t, steps), Joiners(t, steps), |t|)
    decreases |steps|
  {
    if steps != [] {
      var op := steps[0].op;
      var t1 := Apply(t, op, steps[0].now);
      var h := if AddsEntry(t, op) then [IdOf(op.addr)] else [];
      ApplyKeepsColors(t, op, steps[0].now);
      ApplyAllKeepsColors(t1, steps[1..]);
      JoinOrderColors(t1, steps[1..]);
      ColoredStep(t, t1, ApplyAll(t1, steps[1..]), h, Joiners(t1, steps[1..]));
    }
  }

  /** The palette repeats after six peers. */
  lemma ColorForCycles(n: nat)
    ensures ColorFor(n + 6) == ColorFor(n)
  {
  }

  /** With the palette of six, a peer seen for the first time six new peers
      after another gets the same colour; in particular, starting from an
      empty table, the seventh peer ever seen gets the first one's. */
  lemma SixApartShareColor(t: Table, steps: seq<Step>, k: nat)
    requires k + 6 < |Joiners(t, steps)|
    ensures var r, js := ApplyAll(t, steps), Joiners(t, steps);
      js[k] in r && js[k + 6] in r && r[js[k + 6]].textColor == r[js[k]].textColor
  {
    var r, js := ApplyAll(t, steps), Joiners(t, steps);
    JoinOrderColors(t, steps);
    assert js[k] in r && r[js[k]].textColor == ColorFor(|t| + k);
    assert js[k + 6] in r && r[js[k + 6]].textColor == ColorFor(|t| + k + 6);
    ColorForCycles(|t| + k);
  }
}
