/** The pieces of saving edited settings that the controller combines:
    reading the tray flag, the order the edited keys are written in, the
    properties and notifications that writing them produces, and the state
    of a save part-way through. */
module SettingsSaving {
  import opened Base
  import opened Wire
  import opened SettingsStore
  import opened Presence
  import opened Core

  /** A change of the tray icon. */
  datatype TrayChange = IconAdded | IconRemoved

  /** ASCII lower case; other characters are kept. */
  function LowerAscii(c: char): char
  {
    if 'A' <= c <= 'Z' then (c as int + 32) as char else c
  }

  /** Reads a stored flag: true exactly for the text "true" in any letter
      case; a missing value reads as false. */
  predicate ParseBoolean(v: Option<string>)
  {
    v.Some? && |v.value| == 4
    && LowerAscii(v.value[0]) == 't' && LowerAscii(v.value[1]) == 'r'
    && LowerAscii(v.value[2]) == 'u' && LowerAscii(v.value[3]) == 'e'
  }

  /** Every character of `s` in ASCII lower case. */
  function LowerAsciiString(s: string): (r: string)
    ensures |r| == |s|
    ensures forall i :: 0 <= i < |s| ==> r[i] == LowerAscii(s[i])
  {
    seq(|s|, i requires 0 <= i < |s| => LowerAscii(s[i]))
  }

  /** The flag reading in one rule: a stored text reads as true exactly when
      its lower-case form is "true". */
  lemma ParseBooleanIsLowerTrue(v: string)
    ensures ParseBoolean(Some(v)) <==> LowerAsciiString(v) == "true"
  {
    var r := LowerAsciiString(v);
    if r == "true" {
      assert r[0] == 't' && r[1] == 'r' && r[2] == 'u' && r[3] == 'e';
    }
    if ParseBoolean(Some(v)) {
      assert r[0] == 't' && r[1] == 'r' && r[2] == 'u' && r[3] == 'e';
      assert r == "true";
    }
  }

  /** Letter case never matters: two texts that agree once lowered read the
      same, and only a text of four characters can read as true. */
  lemma ParseBooleanIgnoresCase(v: string, w: string)
    requires |v| == |w| && forall i :: 0 <= i < |v| ==> LowerAscii(v[i]) == LowerAscii(w[i])
    ensures ParseBoolean(Some(v)) == ParseBoolean(Some(w))
    ensures ParseBoolean(Some(v)) ==> |v| == 4
  {
    ParseBooleanIsLowerTrue(v);
    ParseBooleanIsLowerTrue(w);
    assert LowerAsciiString(v) == LowerAsciiString(w);
  }

  /** The flag reading accepts the written forms of `true` and nothing
      shorter, longer or missing. */
  lemma ParseBooleanExamples()
    ensures ParseBoolean(Some("true")) && ParseBoolean(Some("TRUE")) && ParseBoolean(Some("True"))
    ensures !ParseBoolean(Some("false")) && !ParseBoolean(Some("yes")) && !ParseBoolean(None)
    ensures !ParseBoolean(Some("true ")) && !ParseBoolean(Some(""))
  {
    assert "true"[0] == 't' && "TRUE"[0] == 'T' && "True"[1] == 'r';
  }

  /** The tray change saving `toSave` calls for: one, exactly when the saved
      flag reads differently from the stored one. */
  function TrayChangeFor(s: Store, toSave: map<string, string>): seq<TrayChange>
  {
    if MinimizeToTrayKey in toSave
       && ParseBoolean(GetProperty(s, MinimizeToTrayKey)) != ParseBoolean(Some(toSave[MinimizeToTrayKey]))
    then [if ParseBoolean(Some(toSave[MinimizeToTrayKey])) then IconAdded else IconRemoved]
    else []
  }

  /** Saving `toSave` changes the stored name. */
  predicate NameChanges(s: Store, toSave: map<string, string>)
  {
    NameKey in toSave && NameKey in s.props && s.props[NameKey] != toSave[NameKey]
  }

  /** `order` lists every key of `keys` exactly once. */
  ghost predicate Enumerates(order: seq<string>, keys: set<string>)
  {
    && (forall i, j :: 0 <= i < j < |order| ==> order[i] != order[j])
    && (forall k :: k in order <==> k in keys)
  }

  /** The keys of an edited-settings map in the order a walk over its key
      set visits them; the order is not specified. */
  method KeyOrder(keys: set<string>) returns (order: seq<string>)
    ensures Enumerates(order, keys)
  {
    order := [];
    var rest := keys;
    while rest != {}
      invariant rest <= keys
      invariant forall i, j :: 0 <= i < j < |order| ==> order[i] != order[j]
      invariant forall k :: k in order <==> k in keys - rest
      decreases rest
    {
      var k :| k in rest;
      assert k !in order;
      order := order + [k];
      rest := rest - {k};
    }
  }

  /** The properties after writing the keys of `order`, in that order, with
      their values from `toSave`. */
  function Written(props: map<string, string>, toSave: map<string, string>, order: seq<string>): map<string, string>
    requires forall k :: k in order ==> k in toSave
  {
    if order == [] then props
    else
      var key := order[|order| - 1];
      Written(props, toSave, order[..|order| - 1])[key := toSave[key]]
  }

  /** A key written along `order` holds its new value; any other key keeps
      the value it had. */
  lemma {:induction false} WrittenLookup(props: map<string, string>, toSave: map<string, string>, order: seq<string>, k: string)
    requires forall k :: k in order ==> k in toSave
    ensures k in Written(props, toSave, order) <==> k in props || k in order
    ensures k in order ==> Written(props, toSave, order)[k] == toSave[k]
    ensures k !in order && k in props ==> Written(props, toSave, order)[k] == props[k]
    decreases |order|
  {
    if order != [] {
      var init := order[..|order| - 1];
      assert order == init + [order[|order| - 1]];
      WrittenLookup(props, toSave, init, k);
    }
  }

  /** Writing every edited key, in any order, gives the stored properties
      overridden by the edited ones. */
  lemma WrittenAll(props: map<string, string>, toSave: map<string, string>, order: seq<string>)
    requires Enumerates(order, toSave.Keys)
    ensures Written(props, toSave, order) == props + toSave
  {
    var w := Written(props, toSave, order);
    forall k ensures k in w <==> k in props + toSave {
      WrittenLookup(props, toSave, order, k);
    }
    forall k | k in w ensures w[k] == (props + toSave)[k] {
      WrittenLookup(props, toSave, order, k);
    }
  }

  /** The notifications writing one key sends. */
  function KeyNotices(key: string): seq<Notification>
  {
    if key == LanguageKey then [LanguageChanged, SettingsChanged] else [SettingsChanged]
  }

  /** The notifications of writing the keys of `order`, in that order. */
  function NoticesFor(order: seq<string>): seq<Notification>
  {
    if order == [] then [] else NoticesFor(order[..|order| - 1]) + KeyNotices(order[|order| - 1])
  }

  /** Writing the keys of `order` sends one settings notice per key and one
      language notice for each occurrence of the language key. */
  lemma {:induction false} NoticesCount(order: seq<string>)
    ensures multiset(NoticesFor(order))[SettingsChanged] == |order|
    ensures multiset(NoticesFor(order))[LanguageChanged] == multiset(order)[LanguageKey]
    ensures |NoticesFor(order)| == |order| + multiset(order)[LanguageKey]
    decreases |order|
  {
    if order != [] {
      var init, key := order[..|order| - 1], order[|order| - 1];
      assert order == init + [key];
      NoticesCount(init);
      assert multiset(NoticesFor(order)) == multiset(NoticesFor(init)) + multiset(KeyNotices(key));
    }
  }

  /** Writing every edited key sends one settings notice per key, and one
      language notice exactly when the language was edited. */
  lemma NoticesForEdited(order: seq<string>, toSave: map<string, string>)
    requires Enumerates(order, toSave.Keys)
    ensures multiset(NoticesFor(order))[SettingsChanged] == |toSave|
    ensures multiset(NoticesFor(order))[LanguageChanged] == (if LanguageKey in toSave then 1 else 0)
  {
    NoticesCount(order);
    DistinctOnce(order, LanguageKey);
    assert |order| == |toSave| by { DistinctLength(order, toSave.Keys); }
  }

  /** A key listed at most once occurs once exactly when it is listed. */
  lemma {:induction false} DistinctOnce(order: seq<string>, k: string)
    requires forall i, j :: 0 <= i < j < |order| ==> order[i] != order[j]
    ensures multiset(order)[k] == (if k in order then 1 else 0)
    decreases |order|
  {
    if order != [] {
      var init, last := order[..|order| - 1], order[|order| - 1];
      assert order == init + [last];
      assert last !in init;
      DistinctOnce(init, k);
    }
  }

  /** A list of distinct keys that covers a set is as long as the set. */
  lemma {:induction false} DistinctLength(order: seq<string>, keys: set<string>)
    requires Enumerates(order, keys)
    ensures |order| == |keys|
    decreases |order|
  {
    if order != [] {
      var init, last := order[..|order| - 1], order[|order| - 1];
      assert order == init + [last];
      assert last !in init;
      assert Enumerates(init, keys - {last});
      DistinctLength(init, keys - {last});
    }
  }

  /** One more key of `order`: the prefix grows by it, and so do the
      properties written and the notifications sent. */
  lemma PrefixStep(order: seq<string>, i: nat, props: map<string, string>, toSave: map<string, string>)
    requires i < |order|
    requires forall k :: k in order ==> k in toSave
    ensures forall k :: k in order[..i + 1] <==> k in order[..i] || k == order[i]
    ensures Written(props, toSave, order[..i + 1]) == Written(props, toSave, order[..i])[order[i] := toSave[order[i]]]
    ensures NoticesFor(order[..i + 1]) == NoticesFor(order[..i]) + KeyNotices(order[i])
  {
    assert order[..i + 1][..i] == order[..i];
    assert order[..i + 1] == order[..i] + [order[i]];
  }

  /** What saving the first `i` keys of `order` has done: the properties
      and language hold those keys' new values, the tray icon changed if the
      flag was among them and changed, the new name went out if it was among
      them and changed, and each key sent its notifications. */
  ghost predicate SavedUpTo(s: Store, toSave: map<string, string>, t: Table, now: int, order: seq<string>, i: nat,
                            saved: Store, sent: seq<Datagram>, tray: seq<TrayChange>, events: seq<Notification>)
    requires i <= |order|
    requires forall k :: k in order ==> k in toSave
  {
    && saved.props == Written(s.props, toSave, order[..i])
    && saved.language == (if LanguageKey in order[..i] then toSave[LanguageKey] else s.language)
    && tray == (if MinimizeToTrayKey in order[..i] then TrayChangeFor(s, toSave) else [])
    && (NameKey in order[..i] && NameChanges(s, toSave) ==> SendsToEachOnlinePeerOnce(sent, t, now, CreateNewNameMessage(toSave[NameKey])))
    && (NameKey !in order[..i] || !NameChanges(s, toSave) ==> sent == [])
    && events == NoticesFor(order[..i])
  }

  /** Before anything is written, nothing has been done. */
  lemma SavedNothing(s: Store, toSave: map<string, string>, t: Table, now: int, order: seq<string>)
    requires Enumerates(order, toSave.Keys)
    ensures SavedUpTo(s, toSave, t, now, order, 0, s, [], [], [])
  {
    assert order[..0] == [];
  }

  /** The key about to be written still holds its stored value. */
  lemma StoredBeforeWrite(s: Store, toSave: map<string, string>, order: seq<string>, i: nat, saved: Store)
    requires Enumerates(order, toSave.Keys) && i < |order|
    requires saved.props == Written(s.props, toSave, order[..i])
    ensures GetProperty(saved, order[i]) == GetProperty(s, order[i])
  {
    assert order[i] !in order[..i];
    WrittenLookup(s.props, toSave, order[..i], order[i]);
  }

  /** Once every key of an enumeration is written, the save is complete. */
  lemma SavedAll(s: Store, toSave: map<string, string>, t: Table, now: int, order: seq<string>,
                 saved: Store, sent: seq<Datagram>, tray: seq<TrayChange>, events: seq<Notification>)
    requires Enumerates(order, toSave.Keys)
    requires SavedUpTo(s, toSave, t, now, order, |order|, saved, sent, tray, events)
    ensures saved.props == s.props + toSave
    ensures saved.language == (if LanguageKey in toSave then toSave[LanguageKey] else s.language)
    ensures tray == TrayChangeFor(s, toSave)
    ensures NameChanges(s, toSave) ==> SendsToEachOnlinePeerOnce(sent, t, now, CreateNewNameMessage(toSave[NameKey]))
    ensures !NameChanges(s, toSave) ==> sent == []
    ensures events == NoticesFor(order)
  {
    assert order[..|order|] == order;
    WrittenAll(s.props, toSave, order);
  }

  /** Saving key `i` of `order` on top of the first `i` keys gives the state
      of the first `i + 1`. */
  lemma SaveStep(s: Store, toSave: map<string, string>, t: Table, now: int, order: seq<string>, i: nat,
                 saved: Store, sent: seq<Datagram>, tray: seq<TrayChange>, events: seq<Notification>,
                 next: Store, sentNow: seq<Datagram>, trayNow: seq<TrayChange>, eventsNow: seq<Notification>)
    requires Enumerates(order, toSave.Keys) && i < |order|
    requires SavedUpTo(s, toSave, t, now, order, i, saved, sent, tray, events)
    requires next.props == saved.props[order[i] := toSave[order[i]]]
    requires next.language == (if order[i] == LanguageKey then toSave[order[i]] else saved.language)
    requires eventsNow == KeyNotices(order[i])
    requires trayNow == TrayChangeFor(saved, map[order[i] := toSave[order[i]]])
    requires NameChanges(saved, map[order[i] := toSave[order[i]]]) ==> SendsToEachOnlinePeerOnce(sentNow, t, now, CreateNewNameMessage(toSave[order[i]]))
    requires !NameChanges(saved, map[order[i] := toSave[order[i]]]) ==> sentNow == []
    ensures SavedUpTo(s, toSave, t, now, order, i + 1, next,
                      if order[i] == NameKey then sentNow else sent,
                      if order[i] == MinimizeToTrayKey then trayNow else tray,
                      events + eventsNow)
  {
    var key := order[i];
    assert key !in order[..i];
    WrittenLookup(s.props, toSave, order[..i], key);
    PrefixStep(order, i, s.props, toSave);
    if key == NameKey {
      assert NameChanges(saved, map[key := toSave[key]]) == NameChanges(s, toSave);
    }
    if key == MinimizeToTrayKey {
      assert TrayChangeFor(saved, map[key := toSave[key]]) == TrayChangeFor(s, toSave);
    }
  }
}
