/** The two controller actions that combine the model objects: going
    offline, and saving the settings the user edited. Adding and removing
    the tray icon are recorded as effects; the settings file is not
    modelled. */
module Controller {
  import opened Base
  import opened Wire
  import opened Presence
  import opened SettingsStore
  import opened Core
  import opened SettingsSaving

  /** Leaves the chat: every peer online before the call gets the leave
      notice, then every entry is made offline. */
  method GoOffline(t: Table, now: int, myName: string) returns (sent: seq<Datagram>, after: Table, events: seq<Notification>)
    requires WellFormed(t)
    ensures SendsToEachOnlinePeerOnce(sent, t, now, CreateChatLeftMessage(myName))
    ensures after.Keys == t.Keys
    ensures forall id, later :: id in after && later >= now ==> !IsOnline(after[id], later)
    ensures forall id :: id in after ==>
      after[id].name == t[id].name && after[id].addr == t[id].addr && after[id].textColor == t[id].textColor
    ensures events == [ListOfParticipantsChanged]
  {
    sent := LeaveChat(t, now, myName);
    var u := SetAllParticipantsOffline(t, now);
    after, events := u.table, u.events;
  }

  /** Writes every edited setting, one key at a time in the order `order`
      reports. Before the flag and the name are overwritten, their stored
      values are compared with the new ones: a changed flag adds or removes
      the tray icon, and a changed name is announced to every online peer. */
  method SaveSettings(s: Store, toSave: map<string, string>, t: Table, now: int)
      returns (order: seq<string>, saved: Store, sent: seq<Datagram>, tray: seq<TrayChange>, events: seq<Notification>)
    requires WellFormed(t)
    requires NameKey in toSave ==> NameKey in s.props
    ensures Enumerates(order, toSave.Keys)
    ensures saved.props == s.props + toSave
    ensures saved.language == (if LanguageKey in toSave then toSave[LanguageKey] else s.language)
    ensures tray == TrayChangeFor(s, toSave)
    ensures NameChanges(s, toSave) ==> SendsToEachOnlinePeerOnce(sent, t, now, CreateNewNameMessage(toSave[NameKey]))
    ensures !NameChanges(s, toSave) ==> sent == []
    ensures events == NoticesFor(order)
  {
    order := KeyOrder(toSave.Keys);
    saved, sent, tray, events := s, [], [], [];
    SavedNothing(s, toSave, t, now, order);
    var i := 0;
    while i < |order|
      invariant 0 <= i <= |order|
      invariant SavedUpTo(s, toSave, t, now, order, i, saved, sent, tray, events)
    {
      saved, sent, tray, events := SaveNext(s, toSave, t, now, order, i, saved, sent, tray, events);
      i := i + 1;
    }
    SavedAll(s, toSave, t, now, order, saved, sent, tray, events);
  }

  /** Writes key `i` of `order` on top of the first `i` keys. */
  method SaveNext(s: Store, toSave: map<string, string>, t: Table, now: int, order: seq<string>, i: nat,
                  saved: Store, sent: seq<Datagram>, tray: seq<TrayChange>, events: seq<Notification>)
      returns (saved': Store, sent': seq<Datagram>, tray': seq<TrayChange>, events': seq<Notification>)
    requires WellFormed(t)
    requires NameKey in toSave ==> NameKey in s.props
    requires Enumerates(order, toSave.Keys) && i < |order|
    requires SavedUpTo(s, toSave, t, now, order, i, saved, sent, tray, events)
    ensures SavedUpTo(s, toSave, t, now, order, i + 1, saved', sent', tray', events')
  {
    var key := order[i];
    var value := toSave[key];
    StoredBeforeWrite(s, toSave, order, i, saved);
    var next, sentNow, trayNow, eventsNow := SaveKey(saved, key, value, t, now);
    SaveStep(s, toSave, t, now, order, i, saved, sent, tray, events, next, sentNow, trayNow, eventsNow);
    saved', events' := next, events + eventsNow;
    sent' := if key == NameKey then sentNow else sent;
    tray' := if key == MinimizeToTrayKey then trayNow else tray;
  }

  /** One iteration of saving: compare the stored value where that matters,
      then write the key. */
  method SaveKey(cur: Store, key: string, value: string, t: Table, now: int)
      returns (next: Store, sent: seq<Datagram>, tray: seq<TrayChange>, events: seq<Notification>)
    requires WellFormed(t)
    requires key == NameKey ==> NameKey in cur.props
    ensures next.props == cur.props[key := value]
    ensures next.language == (if key == LanguageKey then value else cur.language)
    ensures events == KeyNotices(key)
    ensures tray == TrayChangeFor(cur, map[key := value])
    ensures NameChanges(cur, map[key := value]) ==> SendsToEachOnlinePeerOnce(sent, t, now, CreateNewNameMessage(value))
    ensures !NameChanges(cur, map[key := value]) ==> sent == []
  {
    tray, sent := [], [];
    if key == MinimizeToTrayKey {
      var minimizeToTray := ParseBoolean(GetProperty(cur, MinimizeToTrayKey));
      var minimizeToTrayNew := ParseBoolean(Some(value));
      if minimizeToTray != minimizeToTrayNew {
        tray := [if minimizeToTrayNew then IconAdded else IconRemoved];
      }
    }
    if key == NameKey {
      var name := GetProperty(cur, NameKey).value;
      if name != value {
        sent := ChangeMyName(t, now, value);
      }
    }
    var u := SetProperty(cur, key, value);
    next, events := u.store, u.events;
  }
}
