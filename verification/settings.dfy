/** The user's settings: a string-to-string property map with the observer
    notifications its changes send. The language bundle is represented by
    the key it was last initialised with; loading it is not modelled. */
module SettingsStore {
  import opened Base

  const NameKey: string := "name"
  const PortKey: string := "port"
  const MinimizeToTrayKey: string := "minimizeToTray"
  const LanguageKey: string := "language"

  /** Default values: the port as its decimal text, the tray flag as the
      text of `true`, and the English bundle. */
  const DefaultPortText: string := "12345"
  const DefaultMinimizeToTray: string := "true"
  const DefaultLanguage: string := "language_english"
  /** The name used when the local host name cannot be found. */
  const FallbackName: string := "User"

  /** The property map and the bundle key the language was loaded with. */
  datatype Store = Store(props: map<string, string>, language: string)

  /** A store after a change, with the notifications the change sent. */
  datatype Stored = Stored(store: Store, events: seq<Notification>)

  /** The value stored under `key`; `None` stands for a missing key. */
  function GetProperty(s: Store, key: string): (r: Option<string>)
    ensures r.Some? <==> key in s.props
  {
    if key in s.props then Some(s.props[key]) else None
  }

  /** Writes one property. Writing the language key also re-initialises the
      language and tells the observers so before the general change notice. */
  function SetProperty(s: Store, key: string, value: string): (u: Stored)
    ensures GetProperty(u.store, key) == Some(value)
    ensures forall k :: k != key ==> GetProperty(u.store, k) == GetProperty(s, k)
    ensures u.store.language == (if key == LanguageKey then value else s.language)
    ensures u.events == (if key == LanguageKey then [LanguageChanged, SettingsChanged] else [SettingsChanged])
  {
    Stored(Store(s.props[key := value], if key == LanguageKey then value else s.language),
           (if key == LanguageKey then [LanguageChanged] else []) + [SettingsChanged])
  }

  /** Replaces every property by the fixed default set. The host name lookup
      is the parameter: `None` stands for a failed lookup. The language
      bundle is not re-initialised. */
  function SetDefault(s: Store, hostName: Option<string>): (u: Stored)
    ensures u.store.props.Keys == {NameKey, PortKey, MinimizeToTrayKey, LanguageKey}
    ensures GetProperty(u.store, NameKey) == Some(if hostName.Some? then hostName.value else FallbackName)
    ensures GetProperty(u.store, PortKey) == Some(DefaultPortText)
    ensures GetProperty(u.store, MinimizeToTrayKey) == Some(DefaultMinimizeToTray)
    ensures GetProperty(u.store, LanguageKey) == Some(DefaultLanguage)
    ensures u.store.language == s.language
    ensures u.events == [SettingsChanged]
  {
    var name := if hostName.Some? then hostName.value else FallbackName;
    var props := map[NameKey := name][PortKey := DefaultPortText]
                   [MinimizeToTrayKey := DefaultMinimizeToTray][LanguageKey := DefaultLanguage];
    Stored(Store(props, s.language), [SettingsChanged])
  }

  /** Resetting ignores everything stored before: two stores with the same
      language reset to the same store, so a second reset changes nothing. */
  lemma SetDefaultForgets(s1: Store, s2: Store, hostName: Option<string>)
    requires s1.language == s2.language
    ensures SetDefault(s1, hostName).store == SetDefault(s2, hostName).store
    ensures SetDefault(SetDefault(s1, hostName).store, hostName).store == SetDefault(s1, hostName).store
  {
    var r1, r2 := SetDefault(s1, hostName).store, SetDefault(s2, hostName).store;
    forall k ensures k in r1.props <==> k in r2.props { }
    forall k | k in r1.props ensures r1.props[k] == r2.props[k] {
      assert GetProperty(r1, k) == GetProperty(r2, k);
    }
    assert r1.props == r2.props;
  }

  /** Writes to two different keys commute: the resulting store does not
      depend on their order. */
  lemma SetPropertyCommutes(s: Store, k1: string, v1: string, k2: string, v2: string)
    requires k1 != k2
    ensures SetProperty(SetProperty(s, k1, v1).store, k2, v2).store
         == SetProperty(SetProperty(s, k2, v2).store, k1, v1).store
  {
    var a := SetProperty(SetProperty(s, k1, v1).store, k2, v2).store;
    var b := SetProperty(SetProperty(s, k2, v2).store, k1, v1).store;
    forall k ensures GetProperty(a, k) == GetProperty(b, k) { }
    forall k ensures k in a.props <==> k in b.props {
      assert GetProperty(a, k).Some? == GetProperty(b, k).Some?;
    }
    forall k | k in a.props ensures a.props[k] == b.props[k] {
      assert GetProperty(a, k) == GetProperty(b, k);
    }
    assert a.props == b.props;
  }

  /** Writing back the value already stored under any key other than the
      language leaves the store as it was, though the observers are still
      told about a change. */
  lemma SetPropertySameValue(s: Store, key: string)
    requires key in s.props && key != LanguageKey
    ensures SetProperty(s, key, s.props[key]).store == s
    ensures SetProperty(s, key, s.props[key]).events == [SettingsChanged]
  {
    var r := SetProperty(s, key, s.props[key]).store;
    forall k ensures k in r.props <==> k in s.props {
      assert GetProperty(r, k).Some? == GetProperty(s, k).Some?;
    }
    forall k | k in r.props ensures r.props[k] == s.props[k] {
      assert GetProperty(r, k) == GetProperty(s, k);
    }
    assert r.props == s.props;
  }

  /** Writing back the stored language keeps the properties but reloads the
      language from that value, with both notices; the store stays as it was
      exactly when the language was already loaded from the stored key. */
  lemma SetLanguageSameValue(s: Store)
    requires LanguageKey in s.props
    ensures var u := SetProperty(s, LanguageKey, s.props[LanguageKey]);
      && u.store.props == s.props
      && u.store.language == s.props[LanguageKey]
      && (u.store == s <==> s.language == s.props[LanguageKey])
      && u.events == [LanguageChanged, SettingsChanged]
  {
    var r := SetProperty(s, LanguageKey, s.props[LanguageKey]).store;
    forall k ensures k in r.props <==> k in s.props {
      assert GetProperty(r, k).Some? == GetProperty(s, k).Some?;
    }
    forall k | k in r.props ensures r.props[k] == s.props[k] {
      assert GetProperty(r, k) == GetProperty(s, k);
    }
    assert r.props == s.props;
  }

  /** A reset leaves a non-default language loaded while the stored key says
      English, so writing that stored key back changes the store. */
  lemma ResetThenWriteBackReloads(s: Store, hostName: Option<string>)
    requires s.language != DefaultLanguage
    ensures var r := SetDefault(s, hostName).store;
      LanguageKey in r.props && SetProperty(r, LanguageKey, r.props[LanguageKey]).store != r
  {
    var r := SetDefault(s, hostName).store;
    assert GetProperty(r, LanguageKey) == Some(DefaultLanguage);
    SetLanguageSameValue(r);
  }
}
