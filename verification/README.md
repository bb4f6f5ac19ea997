# LanTexter core in Dafny

LanTexter is a serverless LAN chat. Each instance broadcasts a discovery
request every 20 seconds. It answers other peers' requests and keeps a table
of the peers that announced themselves with a discovery request or a presence
reply. Each peer's entry has a name, an address, the
time of its last signal and a text colour. Chat lines and notices about
joining, leaving and renaming go into an append-only history. The history is
rendered as plain text for the tray pop-up and as HTML for the conversation
view. Settings are a string-to-string property map.

This project models that core with immutable values and pure functions. The
clock is an explicit `now` parameter in milliseconds. Observer notifications
are returned as a trace of `Notification` values. Outgoing network traffic is
returned as a list of `Datagram`s.

| file | module | models |
|---|---|---|
| base.dfy | `Base` | `Option` (for `null`), the notification kinds, addresses and the id `"/" + ip` a peer is stored under |
| wire.dfy | `Wire` | the five protocol messages as field-level records; how the receiver reads their fields |
| presence.dfy | `Presence` | `Participant` and `ParticipantList`: liveness, colours, the table operations, online snapshots; also sequences of operations and runs of joining peers |
| messages.dfy | `Messages` | the four history entry kinds, rendered as text and as HTML |
| history.dfy | `History` | `ChatHistory`: appending, the conversation text, the latest message |
| settings.dfy | `SettingsStore` | `Settings`: reading and writing properties, the default set |
| core.dfy | `Core` | `ChatCore`: the effect of one received datagram, the receive loop, the fan-out of outgoing messages |
| saving.dfy | `SettingsSaving` | the pieces of saving edited settings: flag parsing, key order, written properties and notices |
| controller.dfy | `Controller` | `ChatController.goOffline` and `saveSettings` |

Processing one datagram gives one of three outcomes:

- **Handled:** the new table and history, the replies and the notifications.
- **Dropped:** a field the code reads is missing. The receive loop catches the
  JSON error and skips the datagram.
- **Crashed:** a code-4 rename arrives from a peer that is not in the table.
  The name lookup dereferences `null`. The receive loop does not catch that
  exception, so it ends.

Observers are reduced to the notification trace. In the program the
conversation view re-renders the history on the receive thread whenever a
message is added, so a chat line from a peer not in the table also ends the
receive loop there; the model reports that datagram as Handled and records
the unrenderable history instead (see "## Left out").

The source's behaviour is modelled as written, including several quirks:

- Liveness is `now - lastSignal <= 70000`. The boundary is inclusive.
- A peer that announces itself again keeps its stored name.
- A chat line is attributed to the sender's address, not to the name in the
  payload. A chat line from a peer the table does not know therefore makes
  the history unrenderable (`Core.ChatFromStrangerUnrenderable`).
- A leave notice shows the name from the payload.
- Resetting the settings does not re-initialise the language.
- Saving settings compares the stored flag and name before they are
  overwritten.

## Model

| member | source | states |
|---|---|---|
| Base.IdOfInjective | src/main/java/de/ulfbiallas/lantexter/model/ChatCore.java:191-192 | two datagrams map to the same table key only when they come from the same address |
| Wire.Decode | src/main/java/de/ulfbiallas/lantexter/model/ChatCore.java:177-231 | a packet is rejected exactly when its name is missing, its code is outside 1..5, or it is a chat line without text; an accepted packet's name is the message's name, and codes 1 and 4 are recognised by their code alone |
| Wire.CreateWhoIsOnlineMessage | src/main/java/de/ulfbiallas/lantexter/model/network/JsonTools.java:19-27 | the receiver reads it as a discovery request carrying the given name, with no text field |
| Wire.CreateIAmOnlineMessage | src/main/java/de/ulfbiallas/lantexter/model/network/JsonTools.java:35-43 | the receiver reads it as a presence reply carrying the given name, with no text field |
| Wire.CreateChatMessage | src/main/java/de/ulfbiallas/lantexter/model/network/JsonTools.java:52-61 | the receiver reads it as a chat line with the given name and text; it is the only message with a text field |
| Wire.CreateNewNameMessage | src/main/java/de/ulfbiallas/lantexter/model/network/JsonTools.java:70-78 | the receiver reads it as a rename to the new name, with no text field |
| Wire.CreateChatLeftMessage | src/main/java/de/ulfbiallas/lantexter/model/network/JsonTools.java:87-95 | the receiver reads it as a leave notice with the given name, with no text field |
| Wire.EncodeDecodeRoundTrip | src/main/java/de/ulfbiallas/lantexter/model/network/JsonTools.java:19-95 | reading back a built message gives the same message; an accepted packet without foreign fields is exactly the packet its message builds |
| Wire.CodesSelectKind | src/main/java/de/ulfbiallas/lantexter/model/network/JsonTools.java:22-90 | every built code lies in 1..5, and two messages share a code exactly when they are of the same kind |
| Presence.OnlineWithinInterval | src/main/java/de/ulfbiallas/lantexter/model/Participant.java:63-70 | online exactly when the last signal is at most 70 000 ms old; a signal exactly 70 000 ms old counts, one 70 001 ms old does not |
| Presence.NewParticipant | src/main/java/de/ulfbiallas/lantexter/model/Participant.java:36-42 | a new participant is online at its creation time and keeps the given id, name, address and colour |
| Presence.SetOnline | src/main/java/de/ulfbiallas/lantexter/model/Participant.java:47-49 | a refresh at `now` sets the last signal to `now`, so the participant is online at every time in [now, now + 70 000]; id, name, address and colour stay |
| Presence.SetOffline | src/main/java/de/ulfbiallas/lantexter/model/Participant.java:54-56 | after marking at `now` the participant is offline at every time from `now` on; id, name, address and colour stay |
| Presence.SetOfflineIdempotent | src/main/java/de/ulfbiallas/lantexter/model/Participant.java:54-56 | marking offline a second time, later, changes no later liveness answer |
| Presence.SetName | src/main/java/de/ulfbiallas/lantexter/model/Participant.java:86-88 | only the name changes; id, address, colour and last signal stay |
| Presence.ColorForIsRemainder | src/main/java/de/ulfbiallas/lantexter/model/ParticipantList.java:55-58 | the cyclic reference colour of the n-th peer is the palette entry at n mod 6 |
| Presence.ColorForCycles | src/main/java/de/ulfbiallas/lantexter/model/ParticipantList.java:29-35 | the colour sequence repeats with period six |
| Presence.CreateNewParticipant | src/main/java/de/ulfbiallas/lantexter/model/ParticipantList.java:55-58 | the colour is the palette entry at (entries already in the table) mod 6, and the participant is online now with the given id, name and address |
| Presence.AddParticipant | src/main/java/de/ulfbiallas/lantexter/model/ParticipantList.java:85-89 | the participant is stored under its id, the key set grows by that id only, every other entry stays, one list-changed notice |
| Presence.ContainsParticipant | src/main/java/de/ulfbiallas/lantexter/model/ParticipantList.java:66-68 | true exactly when an entry is stored under the id |
| Presence.GetNameOfParticipant | src/main/java/de/ulfbiallas/lantexter/model/ParticipantList.java:137-139 | a direct lookup of the stored name; it requires a known id, where the source throws a NullPointerException on an unknown one |
| Presence.GetTextColorOfParticipant | src/main/java/de/ulfbiallas/lantexter/model/ParticipantList.java:147-149 | a direct lookup of the stored colour; it requires a known id, where the source throws a NullPointerException on an unknown one |
| Presence.LookupsAfterUpdates | src/main/java/de/ulfbiallas/lantexter/model/ParticipantList.java:66-149 | an added peer is found with its own name and colour; after a rename the name lookup gives the new name and the colour lookup the old colour; refreshing and marking offline change neither; no change makes a known id unknown |
| Presence.SetParticipantOnline | src/main/java/de/ulfbiallas/lantexter/model/ParticipantList.java:96-100 | the entry becomes the stored one with its last signal set to `now`, so it is online for the next 70 000 ms with name, colour, address and id unchanged; other entries and the key set stay; one list-changed notice |
| Presence.SetParticipantOffline | src/main/java/de/ulfbiallas/lantexter/model/ParticipantList.java:107-113 | a known entry is offline from now on and keeps its name and colour; an unknown id leaves the table as it is; the list-changed notice is sent either way |
| Presence.ChangeName | src/main/java/de/ulfbiallas/lantexter/model/ParticipantList.java:121-129 | a known entry gets the new name and nothing else changes, with notices list-changed then name-changed; an unknown id changes nothing and sends no notice |
| Presence.SetAllParticipantsOffline | src/main/java/de/ulfbiallas/lantexter/model/ParticipantList.java:186-195 | same keys and size, no entry online at any time from now on, names and colours kept, one notice |
| Presence.GetParticipants | src/main/java/de/ulfbiallas/lantexter/model/ParticipantList.java:156-165 | the result lists every entry online now exactly once, as stored, in some order, and nothing else |
| Presence.GetParticipantNames | src/main/java/de/ulfbiallas/lantexter/model/ParticipantList.java:172-181 | the result is the names of some such enumeration of the online entries, one name per online entry |
| Presence.ApplyKeepsEntries | src/main/java/de/ulfbiallas/lantexter/model/ParticipantList.java:85-195 | no table operation removes a key or breaks the rule that each entry sits under the id of its own address |
| Presence.ApplyAllKeepsEntries | src/main/java/de/ulfbiallas/lantexter/model/ParticipantList.java:85-195 | over any sequence of operations the key set only grows, the size never decreases and the table keeps its shape |
| Presence.JoinStep | src/main/java/de/ulfbiallas/lantexter/model/ChatCore.java:205-207 | a new peer joining adds exactly its key, gets the colour chosen by the size before insertion and leaves every stored entry as it was |
| Presence.ApplyKeepsColors | src/main/java/de/ulfbiallas/lantexter/model/ParticipantList.java:55-58 | one operation adds an entry exactly when it is a join from an unknown address; the table then grows by one and the new entry gets the colour for the old size; no operation changes a stored colour |
| Presence.ApplyAllKeepsColors | src/main/java/de/ulfbiallas/lantexter/model/ParticipantList.java:85-195 | over any sequence of operations the table grows by exactly the number of peers seen for the first time, and every stored colour stays |
| Presence.ApplyAllAppend | src/main/java/de/ulfbiallas/lantexter/model/ParticipantList.java:85-195 | running two stretches of operations one after the other is running them joined, and the peers seen for the first time are those of the first stretch followed by those of the second |
| Presence.JoinOrderColors | src/main/java/de/ulfbiallas/lantexter/model/ParticipantList.java:55-58 | over any interleaving of joins, refreshes, leaves, renames and offline marks, the k-th peer seen for the first time is stored with the colour of the (entries at the start + k)-th peer, that is palette entry (entries at the start + k) mod 6 |
| Presence.SixApartShareColor | src/main/java/de/ulfbiallas/lantexter/model/ParticipantList.java:29-58 | over any such interleaving, the peer seen for the first time six new peers after another gets the same colour; from an empty table, the seventh peer ever seen gets the first one's |
| Messages.ReplaceNewlines | src/main/java/de/ulfbiallas/lantexter/model/message/ChatMessage.java:85 | the result holds no line feed; text without line feeds is unchanged; each line feed adds three characters |
| Messages.ReplaceNewlinesConcat | src/main/java/de/ulfbiallas/lantexter/model/message/ChatMessage.java:85 | replacing line feeds in a concatenation is replacing them in each piece |
| Messages.Text | src/main/java/de/ulfbiallas/lantexter/model/message/ChatMessage.java:70-75 | a chat entry's text starts with the author's stored name and the header line, then ends with the message verbatim; a rename notice starts with the old name and ends with the new one; leave and join notices start with the peer's name |
| Messages.Html | src/main/java/de/ulfbiallas/lantexter/model/message/ChatMessage.java:81-88 | a chat message without line feeds appears verbatim after the header and a line break, inside a font element in the author's colour; every notice's HTML is exactly its plain text inside a font element in colour #aaaaaa |
| Messages.NoticeIndependentOfTable | src/main/java/de/ulfbiallas/lantexter/model/message/NameChangeMessage.java:40-55 | a rename, leave or join notice renders the same text and HTML whatever the table holds, unlike a chat entry |
| Messages.ChatTextWithBreaks | src/main/java/de/ulfbiallas/lantexter/model/message/ChatMessage.java:70-85 | with line feeds replaced, a chat entry's plain text is its header, one line break, and the message with its line feeds replaced, provided the name and time hold no line feed |
| Messages.ChatHtmlIsTextWithBreaks | src/main/java/de/ulfbiallas/lantexter/model/message/ChatMessage.java:70-88 | a chat entry's HTML is its plain text with every line feed made a line break, in the author's colour, provided the name and time hold no line feed |
| History.AddMessage | src/main/java/de/ulfbiallas/lantexter/model/ChatHistory.java:45-49 | exactly one entry is appended at the end, earlier entries are unchanged, one message-received notice |
| History.GetChatText | src/main/java/de/ulfbiallas/lantexter/model/ChatHistory.java:65-75 | the loop's result is the in-order concatenation of each entry's HTML followed by an empty line; an empty history gives the empty string |
| History.ChatTextAppend | src/main/java/de/ulfbiallas/lantexter/model/ChatHistory.java:65-75 | the conversation text of two stretches of history is the first one's text followed by the second one's |
| History.ChatTextAfterAdd | src/main/java/de/ulfbiallas/lantexter/model/ChatHistory.java:45-75 | adding an entry extends the conversation text by exactly that entry's HTML and an empty line |
| History.GetLatestMessage | src/main/java/de/ulfbiallas/lantexter/model/ChatHistory.java:82-88 | the result is null exactly when the history is empty |
| History.LatestIsLastAdded | src/main/java/de/ulfbiallas/lantexter/model/ChatHistory.java:82-88 | after an entry is added, the latest message is that entry's plain text |
| History.RenderableStays | src/main/java/de/ulfbiallas/lantexter/model/ParticipantList.java:137-149 | the lookups the renderings make keep succeeding after any further table operations, because no entry is removed |
| SettingsStore.GetProperty | src/main/java/de/ulfbiallas/lantexter/model/Settings.java:71-73 | null exactly for a key that is not stored |
| SettingsStore.SetProperty | src/main/java/de/ulfbiallas/lantexter/model/Settings.java:83-92 | reading the key back gives the value and every other key reads as before; the language key re-initialises the language and sends language-changed before settings-changed; any other key sends only settings-changed |
| SettingsStore.SetDefault | src/main/java/de/ulfbiallas/lantexter/model/Settings.java:97-116 | the keys are exactly name, port, minimizeToTray and language, with the host name (or "User"), "12345", "true" and "language_english"; the language is unchanged; only settings-changed is sent |
| SettingsStore.SetDefaultForgets | src/main/java/de/ulfbiallas/lantexter/model/Settings.java:97-98 | for the same language, the reset store does not depend on the properties stored before, so a second reset changes nothing |
| SettingsStore.SetPropertyCommutes | src/main/java/de/ulfbiallas/lantexter/model/Settings.java:83-84 | writes to two different keys give the same store in either order |
| SettingsStore.SetPropertySameValue | src/main/java/de/ulfbiallas/lantexter/model/Settings.java:83-92 | for any key other than the language, writing back the stored value leaves the store as it was, though settings-changed is still sent |
| SettingsStore.SetLanguageSameValue | src/main/java/de/ulfbiallas/lantexter/model/Settings.java:83-92 | writing back the stored language keeps the properties, reloads the language from the stored key and sends language-changed then settings-changed; the store is unchanged exactly when that key was already the loaded language |
| SettingsStore.ResetThenWriteBackReloads | src/main/java/de/ulfbiallas/lantexter/model/Settings.java:83-116 | after a reset on a store with a non-English language loaded, writing the stored language key back changes the store |
| Core.Hear | src/main/java/de/ulfbiallas/lantexter/model/ChatCore.java:204-211 | the sender is in the table with its last signal set to `now`, so online; a known sender's entry is otherwise exactly as stored; a new one gets the payload name and the next colour; it counts as joining exactly when it was unknown or offline; no other entry changes |
| Core.OnPresence | src/main/java/de/ulfbiallas/lantexter/model/ChatCore.java:200-236 | the table is the presence update; a join notice with the payload name and its message notice are added exactly when the sender joined |
| Core.ProcessMessage | src/main/java/de/ulfbiallas/lantexter/model/ChatCore.java:176-237 | a datagram is skipped exactly when a field its code reads is missing, and crashes exactly on a rename from an unknown sender; only code 1 is answered, once, to the sender with the configured name; an unknown code changes nothing; the history grows by at most one entry and no table key is lost |
| Core.Dispatch | src/main/java/de/ulfbiallas/lantexter/model/ChatCore.java:182-236 | a decoded message is never skipped; it crashes exactly on a rename from an unknown sender; only a discovery request is answered |
| Core.ProcessKeepsWellFormed | src/main/java/de/ulfbiallas/lantexter/model/ChatCore.java:176-237 | a handled datagram keeps every entry under the id of its own address |
| Core.DispatchIsTableSteps | src/main/java/de/ulfbiallas/lantexter/model/ChatCore.java:182-231 | a handled message changes the table by exactly its table operations: a join for a presence message, a rename, an offline mark for a leave notice, nothing for a chat line |
| Core.ProcessIsTableSteps | src/main/java/de/ulfbiallas/lantexter/model/ChatCore.java:176-237 | a handled datagram changes the table by exactly its table operations; an unknown code changes nothing |
| Core.Receive | src/main/java/de/ulfbiallas/lantexter/model/network/ServerThread.java:63-85 | the receive loop over a stretch of arrivals: the history only grows, no table key is lost, and the loop stops only if some arrival had code 4 |
| Core.ReceiveIsTableSteps | src/main/java/de/ulfbiallas/lantexter/model/network/ServerThread.java:63-85 | the table after a stretch of arrivals is the table operations of the handled datagrams applied in arrival order, up to the datagram that ends the loop |
| Core.PresenceEffect | src/main/java/de/ulfbiallas/lantexter/model/ChatCore.java:184-236 | codes 1 and 2 leave the sender present and online; a known sender keeps its name and colour; a join entry with the payload name is added exactly when the sender was unknown or offline |
| Core.ChatEffect | src/main/java/de/ulfbiallas/lantexter/model/ChatCore.java:214-218 | code 3 appends one chat entry attributed to the sender's address with the payload text, leaves the table alone, one message notice |
| Core.NewNameEffect | src/main/java/de/ulfbiallas/lantexter/model/ChatCore.java:220-225 | code 4 from a known sender changes only its name and appends a rename entry with the old stored name and the new one |
| Core.ChatLeftEffect | src/main/java/de/ulfbiallas/lantexter/model/ChatCore.java:227-230 | code 5 makes a known sender offline from now on, changes nothing for an unknown one, and appends a leave entry with the payload name |
| Core.ProcessKeepsRenderable | src/main/java/de/ulfbiallas/lantexter/model/ChatCore.java:214-236 | the history stays renderable, unless the datagram is a chat line from a peer not in the table |
| Core.ChatFromStrangerUnrenderable | src/main/java/de/ulfbiallas/lantexter/model/ChatCore.java:214-218 | a chat line from a peer not in the table is stored with an author the renderings cannot look up |
| Core.ReceiveInvariants | src/main/java/de/ulfbiallas/lantexter/model/network/ServerThread.java:63-85 | over any stretch of arrivals the table keeps its shape and all its keys, the history only grows, and, with observers reduced to the notification trace, the loop ends only if some arrival had code 4 |
| Core.FanOut | src/main/java/de/ulfbiallas/lantexter/model/ChatCore.java:159-170 | the packet goes exactly once to every peer online now, and to nobody else |
| Core.FanOutCovers | src/main/java/de/ulfbiallas/lantexter/model/ParticipantList.java:156-165 | one datagram per entry of an online snapshot is one datagram per online peer |
| Core.SendMessage | src/main/java/de/ulfbiallas/lantexter/model/ChatCore.java:159-170 | the chat line goes once to each online peer and to nobody else |
| Core.ChangeMyName | src/main/java/de/ulfbiallas/lantexter/model/ChatCore.java:91-102 | the new name goes once to each online peer and to nobody else |
| Core.LeaveChat | src/main/java/de/ulfbiallas/lantexter/model/ChatCore.java:141-152 | the leave notice goes once to each online peer and to nobody else |
| SettingsSaving.ParseBooleanIsLowerTrue | src/main/java/de/ulfbiallas/lantexter/control/ChatController.java:218-219 | a stored text reads as true exactly when its lower-case form is "true" |
| SettingsSaving.ParseBooleanIgnoresCase | src/main/java/de/ulfbiallas/lantexter/control/ChatController.java:218-219 | two stored texts that agree up to ASCII letter case read as the same flag, and only a four-character text reads as true |
| SettingsSaving.ParseBooleanExamples | src/main/java/de/ulfbiallas/lantexter/control/ChatController.java:218-219 | examples of the flag reading: "true", "TRUE" and "True" read as true; "false", "yes", "true ", the empty text and a missing value read as false |
| SettingsSaving.KeyOrder | src/main/java/de/ulfbiallas/lantexter/control/ChatController.java:210-214 | the walk visits every edited key exactly once |
| SettingsSaving.WrittenLookup | src/main/java/de/ulfbiallas/lantexter/control/ChatController.java:239 | after writing keys in some order, each written key holds its new value and every other key its old one |
| SettingsSaving.WrittenAll | src/main/java/de/ulfbiallas/lantexter/control/ChatController.java:213-240 | writing every edited key in any order gives the stored properties overridden by the edited ones |
| SettingsSaving.NoticesCount | src/main/java/de/ulfbiallas/lantexter/model/Settings.java:85-91 | writing a list of keys sends one settings notice per key and one language notice per occurrence of the language key |
| SettingsSaving.NoticesForEdited | src/main/java/de/ulfbiallas/lantexter/control/ChatController.java:213-240 | saving sends one settings notice per edited key, and one language notice exactly when the language was edited |
| SettingsSaving.SaveStep | src/main/java/de/ulfbiallas/lantexter/control/ChatController.java:213-240 | one more iteration on top of the first i keys gives the state after the first i + 1 keys |
| Controller.GoOffline | src/main/java/de/ulfbiallas/lantexter/control/ChatController.java:148-152 | the leave notice goes to every peer online before the call; afterwards every entry is offline from now on, with keys, names, addresses and colours kept |
| Controller.SaveKey | src/main/java/de/ulfbiallas/lantexter/control/ChatController.java:214-239 | one key is written; the tray changes only when the flag reads differently from the stored one; the new name is announced only when it differs from the stored one |
| Controller.SaveSettings | src/main/java/de/ulfbiallas/lantexter/control/ChatController.java:209-242 | every edited key is written, in an order that visits each once; the tray icon is added or removed exactly when the flag changes; a changed name goes to every online peer and an unchanged one to nobody; the notices are those of the keys in write order |

## Left out

- Sockets, the receive thread and the heartbeat timer are not modelled:
  `startServer`, `stopServer`, `onError` and `onSuccessfulStarted`, plus the
  periodic discovery broadcast. Threads and timers have no counterpart in
  pure functions. The receive loop is modelled only as `Core.Receive` over a
  given sequence of arrivals.
- The JSON text form is not modelled. This covers json-lib parsing and
  escaping, the string `"1"` the sender writes for the code, and the
  1024-byte receive buffer. Packets are field-level records.
- A datagram whose `code` field is missing or not a number is not modelled.
  Its exception is skipped like any other JSON error; only missing `name` and
  `text` fields become `Dropped`.
- The language bundle is not modelled. Its three labels are the `Labels`
  parameter, and the store keeps only the key the language was last loaded
  with.
- The settings file is not modelled: loading it, storing it, and the
  constructor's fallback to the defaults. They are file I/O.
- The host name lookup is the `hostName` parameter of `SetDefault`.
- The printed receive time (`Date.toString`) is the `stamp` parameter. The
  clock is the `now` parameter, and one value is used for a whole operation.
  A fan-out's re-check of liveness therefore sees the same time as its
  snapshot.
- The tray icon itself and the dialogs are not modelled; adding and removing
  the icon are recorded as effects. An icon that cannot be added shows an
  error dialog, which is not modelled; `quit`, `openSettingsView` and
  `openAboutView` are left out too.
- Core.ReceiveInvariants: a chat line from a peer not in the table is
  Handled in the model and the loop goes on, with the history left
  unrenderable. In the program the conversation view re-renders the history
  synchronously when the entry is added; the author lookup throws a
  NullPointerException and ends the receive thread. The view is not modelled.
- Controller.SaveKey: requires that a name is stored when the key is the
  name, for the same reason as `Controller.SaveSettings` below.
- Controller.SaveSettings: requires that a name is stored whenever the name
  is edited. In the source a missing stored name throws a
  NullPointerException part-way through the save. That failure is not
  modelled.
- Presence.GetParticipants: requires every entry to sit under the id of its
  own address. Every table the program builds has that shape (proved by
  `Presence.ApplyAllKeepsEntries` and `Core.ProcessKeepsWellFormed`). The
  requirement is also on `Core.FanOut` and the methods that call it.
- SettingsSaving.ParseBoolean: letters are compared ASCII-case-insensitively.
  Java's `equalsIgnoreCase` also folds other Unicode letters, which cannot
  spell "true".
- 64-bit wrap-around of the millisecond clock is not modelled; clock values
  are unbounded integers.
